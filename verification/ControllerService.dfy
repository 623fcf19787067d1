/**
 `Controller` as it runs: administrators' requests, and an execution with its rollback,
 each transaction tied to its specification.
 */
module ControllerService {
  import opened Schema
  import opened Durable
  import opened ControllerModel
  import opened ControllerInvariants
  import opened ControllerAgreement
  import opened ControllerFences
  import opened ControllerOutcomes
  import M = ControllerMachine

  /** The services of one host; deployments replace their processes. */
  class Host {
    var runtimes: map<InstanceId, Runtime>
    var serial: nat
    /** Every deployment asked for, whether or not it took. */
    ghost var asked: seq<(InstanceId, SpecHash)>

    constructor (runtimes: map<InstanceId, Runtime>, serial: nat)
      ensures this.runtimes == runtimes && this.serial == serial && asked == []
    {
      this.runtimes, this.serial, asked := runtimes, serial, [];
    }

    /** `deploy`: takes or does not, and may raise either way. */
    method Deploy(id: InstanceId, spec: Spec, takes: bool)
      modifies this
      ensures asked == old(asked) + [(id, Digest(spec))]
      ensures runtimes == (if takes then old(runtimes)[id := Runtime(Digest(spec), old(serial))] else old(runtimes))
      ensures serial == (if takes then old(serial) + 1 else old(serial))
    {
      asked := asked + [(id, Digest(spec))];
      if takes { runtimes, serial := runtimes[id := Runtime(Digest(spec), serial)], serial + 1; }
    }
  }

  /** What the environment answers to one administrator's request. */
  datatype Desk = Desk(busy: bool, now: real, permitted: bool, qualified: bool, sound: bool)

  // ------------------------------------------------------- what an execution touches

  /** Only the operation's phase, its evidence, its instance's row and the events differ. */
  ghost predicate Worked(db: Db, db': Db, t: Token) {
    && t.id in db.operations && t.id in db'.operations
    && var id := db.operations[t.id].instance;
       && id in db.instances && id in db'.instances
       && db' == db.(operations := db.operations[t.id := db.operations[t.id].(phase := db'.operations[t.id].phase)],
                     instances := db.instances[id := db'.instances[id]],
                     evidence := db'.evidence, events := db'.events)
  }

  /** And the operation is still held by its token. */
  ghost predicate Held(db: Db, db': Db, t: Token) {
    Worked(db, db', t) && db'.instances == db.instances && Disowned(db', t).None?
  }

  /** Only `id` may run something else. */
  ghost predicate Elsewhere(before: map<InstanceId, Runtime>, after: map<InstanceId, Runtime>, id: InstanceId) {
    forall j | j != id :: (j in after <==> j in before) && (j in before ==> after[j] == before[j])
  }

  /** One deployment was asked for, or none. */
  ghost predicate MayAsk(before: seq<(InstanceId, SpecHash)>, after: seq<(InstanceId, SpecHash)>, id: InstanceId, spec: SpecHash) {
    after == before || after == before + [(id, spec)]
  }

  /** The deployments of one execution: forward at most once, then back at most once. */
  ghost predicate Asked(before: seq<(InstanceId, SpecHash)>, after: seq<(InstanceId, SpecHash)>, op: Operation) {
    exists mid :: MayAsk(before, mid, op.instance, op.candidate) && MayAsk(mid, after, op.instance, op.baseline)
  }

  lemma AskedNothing(asked: seq<(InstanceId, SpecHash)>, op: Operation)
    ensures Asked(asked, asked, op)
  {
    assert MayAsk(asked, asked, op.instance, op.candidate);
  }

  lemma AskedForward(before: seq<(InstanceId, SpecHash)>, after: seq<(InstanceId, SpecHash)>, op: Operation)
    requires MayAsk(before, after, op.instance, op.candidate)
    ensures Asked(before, after, op)
  {
    assert MayAsk(after, after, op.instance, op.baseline);
  }

  lemma AskedBack(before: seq<(InstanceId, SpecHash)>, mid: seq<(InstanceId, SpecHash)>, after: seq<(InstanceId, SpecHash)>, op: Operation)
    requires MayAsk(before, mid, op.instance, op.candidate) && MayAsk(mid, after, op.instance, op.baseline)
    ensures Asked(before, after, op)
  {}

  lemma HeldItself(db: Db, t: Token)
    requires Disowned(db, t).None?
    ensures Held(db, db, t)
  {
    var op := db.operations[t.id];
    assert db.operations == db.operations[t.id := op.(phase := op.phase)];
    assert db.instances == db.instances[op.instance := db.instances[op.instance]];
  }

  lemma WorkedThrough(a: Db, b: Db, c: Db, t: Token)
    requires Worked(a, b, t) && Worked(b, c, t)
    ensures Worked(a, c, t)
  {}

  lemma PhaseHolds(db: Db, t: Token, phase: Phase)
    ensures var tx := PhaseTx(db, t, phase);
            tx.Done? ==>
              && Disowned(db, t).None? && MayMove(db.operations[t.id].phase, phase)
              && (!Terminal(phase) ==> Held(db, tx.docs, t) && tx.docs.operations[t.id].phase == phase)
  {
    if Disowned(db, t).None? {
      var id := db.operations[t.id].instance;
      assert db.instances == db.instances[id := db.instances[id]];
    }
  }

  lemma PhaseExactly(db: Db, t: Token, phase: Phase)
    requires Disowned(db, t).None?
    ensures PhaseTx(db, t, phase).Done? <==> MayMove(db.operations[t.id].phase, phase)
  {}

  lemma EvidenceHolds(db: Db, t: Token, seen: Runtime)
    requires EvidenceTx(db, t, seen).Done?
    ensures Held(db, EvidenceTx(db, t, seen).docs, t) && EvidenceTx(db, t, seen).docs.operations == db.operations
  {
    HeldItself(db, t);
  }

  /** The committed operation, its instance at rest on what was observed. */
  lemma CommitWorks(db: Db, t: Token, restore: bool, observed: Runtime, latest: Runtime, owns: bool, sound: bool)
    requires CommitTx(db, t, restore, observed, latest, owns, sound).Done?
    ensures latest == observed
    ensures var db' := CommitTx(db, t, restore, observed, latest, owns, sound).docs;
            var op := db.operations[t.id];
            && Worked(db, db', t) && db'.operations[t.id].phase == (if restore then RolledBack else Committed)
            && db'.instances[op.instance] ==
                 Instance(db.instances[op.instance].generation + 1, t.fence, TargetOf(op, restore), observed, None, Ready)
  {}

  lemma UnchangedShape(db: Db, t: Token, seen: Runtime, owns: bool, sound: bool)
    requires UnchangedTx(db, t, seen, owns, sound).Done?
    ensures Disowned(db, t).None? && db.operations[t.id].plan in db.plans
    ensures var tx := UnchangedTx(db, t, seen, owns, sound);
            var op := db.operations[t.id];
            if !tx.value then tx.docs == db
            else
              && Worked(db, tx.docs, t) && tx.docs.operations[t.id].phase == Unchanged
              && seen == Runtime(op.baseline, db.plans[op.plan].identity)
              && tx.docs.instances[op.instance] ==
                   db.instances[op.instance].(operation := None, status := Ready, observation := seen)
  {}

  /** The untouched operation, its instance at rest where it was. */
  lemma UnchangedWorks(db: Db, t: Token, seen: Runtime, owns: bool, sound: bool)
    requires Sound(db) && UnchangedTx(db, t, seen, owns, sound).Done? && UnchangedTx(db, t, seen, owns, sound).value
    ensures Disowned(db, t).None?
    ensures var docs := UnchangedTx(db, t, seen, owns, sound).docs;
            var op := db.operations[t.id];
            && Worked(db, docs, t) && docs.operations[t.id].phase == Unchanged
            && seen == Runtime(op.baseline, op.plan.plan.identity)
            && docs.instances[op.instance] ==
                 Instance(db.instances[op.instance].generation, t.fence, op.baseline, seen, None, Ready)
  {
    hide UnchangedTx;
    UnchangedShape(db, t, seen, owns, sound);
    OwnerIsCurrent(db, t);
    assert db.operations[t.id].plan in db.plans;
  }

  lemma GiveUpWorks(db: Db, t: Token)
    ensures var tx := GiveUpTx(db, t);
            && (tx.Done? <==> Disowned(db, t).None?)
            && (tx.Done? ==>
                  var op := db.operations[t.id];
                  && Worked(db, tx.docs, t) && tx.docs.operations[t.id].phase == RollbackFailed
                  && tx.docs.instances[op.instance] == db.instances[op.instance].(status := RecoveryRequired))
  {}

  /** What a verification established. */
  lemma VerifyShows(db: Db, t: Token, restore: bool, seen: Runtime, now: real, owns: bool, sound: bool)
    requires Sound(db) && VerifyTx(db, t, restore, seen, now, owns, sound).Done?
    ensures t.id in db.operations
    ensures var op := db.operations[t.id];
            seen.spec == TargetOf(op, restore) && seen.identity != op.plan.plan.identity
            && VerifyTx(db, t, restore, seen, now, owns, sound).value == seen
  {
    hide Enrolled, FromPlans, Coupled, OneShot, TicketsOk, GrantsOk, Consumed, DeadlineOf;
  }

  lemma BeginLeavesSound(db: Db, p: PlanId, nonce: Nonce, expected: Option<Action>, runtimes: map<InstanceId, Runtime>, sound: bool,
                         o: OpId, executor: Executor, now: real)
    requires Sound(db) && o !in db.operations
    ensures p in db.plans && db.plans[p].instance in runtimes ==>
      Sound(After(BeginTx(db, p, nonce, expected, runtimes[db.plans[p].instance], sound, o, executor, now), db))
  {
    hide Sound, BeginTx;
    if p in db.plans && db.plans[p].instance in runtimes {
      BeginKeeps(db, p, nonce, expected, runtimes[db.plans[p].instance], sound, o, executor, now);
    }
  }

  class Controller {
    const store: Store<Db>
    const host: Host

    constructor (store: Store<Db>, host: Host)
      ensures this.store == store && this.host == host
    {
      this.store, this.host := store, host;
    }

    // -------------------------------------------------------------- administrators

    method Register(id: InstanceId, registration: Registration, baseline: Spec, e: Desk, elsewhere: bool) returns (r: Option<()>)
      requires !store.open
      modifies store
      ensures !store.open
      ensures elsewhere || id !in host.runtimes ==> r.None? && store.committed == old(store.committed)
      ensures id in host.runtimes ==>
        Transacted(RegisterTx(old(store.committed), id, registration, baseline, host.runtimes[id], e.qualified, e.sound, elsewhere),
                   e.busy, old(store.committed), store.committed, r)
      ensures Sound(old(store.committed)) ==> Sound(store.committed)
    {
      hide Sound, Extends;
      if Sound(store.committed) { if id in host.runtimes { RegisterKeeps(store.committed, id, registration, baseline, host.runtimes[id], e.qualified, e.sound, elsewhere); } }
      r := None;
      if id !in host.runtimes { return; }
      var hash := Digest(baseline);
      var observation := host.runtimes[id];
      if !e.qualified || !Confirms(observation, hash, e.sound) { return; }
      var began := store.Begin(e.busy);
      if !began { return; }
      if id in store.draft.instances || elsewhere { store.Rollback(); return; }
      var specs := PutOnce(store.draft.specs, hash, baseline);
      if specs.None? { store.Rollback(); return; }
      store.draft := store.draft.(specs := specs.value);
      var registrations := PutOnce(store.draft.registrations, id, registration);
      if registrations.None? { store.Rollback(); return; }
      store.draft := store.draft.(registrations := registrations.value);
      store.draft := store.draft.(instances := store.draft.instances[id := Instance(0, 0, hash, observation, None, Ready)]);
      store.draft := store.draft.(events := store.draft.events + [Event(ForInstance(id), Registered)]);
      store.Commit();
      r := Some(());
    }

    /** `plan`. The observation was made before the transaction. */
    method Plan(id: InstanceId, action: Action, candidate: Spec, seen: Runtime, budget: Budget, e: Desk) returns (r: Option<PlanId>)
      requires !store.open
      modifies store
      ensures !store.open
      ensures Transacted(PlanTx(old(store.committed), id, action, candidate, seen, budget, e.now, e.qualified, e.sound),
                         e.busy, old(store.committed), store.committed, r)
      ensures Sound(old(store.committed)) ==> Sound(store.committed)
    {
      hide Sound, Extends;
      assert Sound(store.committed) ==>
        Sound(After(PlanTx(store.committed, id, action, candidate, seen, budget, e.now, e.qualified, e.sound), store.committed)) by {
        hide PlanTx;
        if Sound(store.committed) { PlanKeeps(store.committed, id, action, candidate, seen, budget, e.now, e.qualified, e.sound); }
      }
      r := None;
      var began := store.Begin(e.busy);
      if !began { return; }
      if !ValidBudget(budget) || id !in store.draft.registrations || action !in store.draft.registrations[id].actions
         || !e.qualified || id !in store.draft.instances {
        store.Rollback();
        return;
      }
      var current := store.draft.instances[id];
      if current.status != Ready || current.operation.Some? || current.spec !in store.draft.specs { store.Rollback(); return; }
      var baseline := store.draft.specs[current.spec];
      if !Confirms(seen, current.spec, e.sound) || seen.identity != current.observation.identity || candidate.shape != baseline.shape {
        store.Rollback();
        return;
      }
      if action == Disable && (candidate.mods != [] || candidate.attestor.Some?) { store.Rollback(); return; }
      if action == Action.Rollback && (id, Digest(candidate)) !in store.draft.retained { store.Rollback(); return; }
      var plan := ControllerModel.Plan(id, action, current.generation, current.fence, seen.identity, current.spec, Digest(candidate),
                                       e.now, e.now + budget.ttl as real, budget.verify, budget.recovery);
      var specs := PutOnce(store.draft.specs, Digest(candidate), candidate);
      var plans := PutOnce(store.draft.plans, Sealed(plan), plan);
      if specs.None? || plans.None? { store.Rollback(); return; }
      store.draft := store.draft.(specs := specs.value, plans := plans.value);
      store.draft := store.draft.(events := store.draft.events + [Event(ForPlan(Sealed(plan)), Planned)]);
      store.Commit();
      r := Some(Sealed(plan));
    }

    method Approve(p: PlanId, nonce: Nonce, e: Desk) returns (r: Option<Nonce>)
      requires !store.open
      modifies store
      ensures !store.open
      ensures Transacted(ApproveTx(old(store.committed), p, nonce, e.now), e.busy, old(store.committed), store.committed, r)
      ensures Sound(old(store.committed)) && nonce !in old(store.committed).approvals ==> Sound(store.committed)
    {
      hide Sound, Extends;
      if Sound(store.committed) && nonce !in store.committed.approvals { ApproveKeeps(store.committed, p, nonce, e.now); }
      r := None;
      var began := store.Begin(e.busy);
      if !began { return; }
      if p !in store.draft.plans { store.Rollback(); return; }
      var plan := store.draft.plans[p];
      if Sealed(plan) != p || e.now >= plan.expires || p in store.draft.cancelled || plan.instance !in store.draft.instances {
        store.Rollback();
        return;
      }
      var current := store.draft.instances[plan.instance];
      if current.generation != plan.generation || current.fence != plan.fence || current.operation.Some? { store.Rollback(); return; }
      var approvals := PutOnce(store.draft.approvals, nonce, Approval(p, plan.action, plan.generation, plan.expires, false));
      if approvals.None? { store.Rollback(); return; }
      store.draft := store.draft.(approvals := approvals.value);
      store.draft := store.draft.(events := store.draft.events + [Event(ForPlan(p), Approved)]);
      store.Commit();
      r := Some(nonce);
    }

    /** The scan of `cancel_plan` over every operation. */
    method Reserved(operations: map<OpId, Operation>, p: PlanId) returns (used: bool)
      ensures used <==> exists o | o in operations :: operations[o].plan == p
    {
      used := false;
      var rest := operations.Keys;
      while rest != {} && !used
        invariant rest <= operations.Keys
        invariant forall o | o in operations.Keys - rest :: operations[o].plan == p ==> used
        invariant used ==> exists o | o in operations :: operations[o].plan == p
        decreases |rest|
      {
        var o :| o in rest;
        used := operations[o].plan == p;
        rest := rest - {o};
      }
    }

    method CancelPlan(p: PlanId, busy: bool) returns (r: Option<()>)
      requires !store.open
      modifies store
      ensures !store.open
      ensures Transacted(CancelTx(old(store.committed), p), busy, old(store.committed), store.committed, r)
      ensures Sound(old(store.committed)) ==> Sound(store.committed)
    {
      hide Sound, Extends;
      if Sound(store.committed) { CancelKeeps(store.committed, p); }
      r := None;
      var began := store.Begin(busy);
      if !began { return; }
      if p !in store.draft.plans || Sealed(store.draft.plans[p]) != p { store.Rollback(); return; }
      if p !in store.draft.cancelled {
        var used := Reserved(store.draft.operations, p);
        if used { store.Rollback(); return; }
        store.draft := store.draft.(cancelled := store.draft.cancelled + {p});
        store.draft := store.draft.(events := store.draft.events + [Event(ForPlan(p), PlanCancelled)]);
      }
      store.Commit();
      r := Some(());
    }

    /** The plan names an instance whose service can be inspected. */
    predicate Inspectable(db: Db, p: PlanId)
      reads host
    {
      p in db.plans && db.plans[p].instance in host.runtimes
    }

    /** `begin`. The observation is made inside the transaction. */
    method Begin(p: PlanId, nonce: Nonce, expected: Option<Action>, o: OpId, executor: Executor, e: Desk) returns (r: Option<Operation>)
      requires !store.open
      modifies store
      ensures !store.open
      ensures !Inspectable(old(store.committed), p) ==> r.None? && store.committed == old(store.committed)
      ensures Inspectable(old(store.committed), p) ==>
        Transacted(BeginTx(old(store.committed), p, nonce, expected, host.runtimes[old(store.committed).plans[p].instance], e.sound,
                           o, executor, e.now),
                   e.busy, old(store.committed), store.committed, r)
      ensures Sound(old(store.committed)) && o !in old(store.committed).operations ==> Sound(store.committed)
    {
      hide Sound, Extends, Mismatched, Outdated, Confirms;
      if Sound(store.committed) && o !in store.committed.operations {
        BeginLeavesSound(store.committed, p, nonce, expected, host.runtimes, e.sound, o, executor, e.now);
      }
      r := None;
      var began := store.Begin(e.busy);
      if !began { return; }
      if !Inspectable(store.draft, p) { store.Rollback(); return; }
      var plan := store.draft.plans[p];
      var id := plan.instance;
      if id !in store.draft.registrations { store.Rollback(); return; }
      var observed := host.runtimes[id];
      if expected.Some? && plan.action != expected.value { store.Rollback(); return; }
      if p in store.draft.cancelled || nonce !in store.draft.approvals || id !in store.draft.instances { store.Rollback(); return; }
      var ticket := store.draft.approvals[nonce];
      var current := store.draft.instances[id];
      if Mismatched(p, plan, ticket) || ticket.consumed || e.now >= ticket.expires || plan.action !in store.draft.registrations[id].actions {
        store.Rollback();
        return;
      }
      if Outdated(current, plan) { store.Rollback(); return; }
      if !Confirms(observed, plan.baseline, e.sound) || observed.identity != plan.identity { store.Rollback(); return; }
      current := current.(fence := current.fence + 1, operation := Some(o), status := Changing);
      var operation := Operation(o, p, id, current.fence, Phase.Reserved, plan.baseline, plan.candidate,
                                 e.now + plan.verify as real, e.now + plan.recovery as real, executor);
      ticket := ticket.(consumed := true);
      store.draft := store.draft.(approvals := store.draft.approvals[nonce := ticket],
                                  instances := store.draft.instances[id := current],
                                  operations := store.draft.operations[o := operation],
                                  retained := store.draft.retained + {(id, plan.baseline)},
                                  events := store.draft.events + [Event(ForOperation(o), Reached(Phase.Reserved))]);
      store.Commit();
      r := Some(operation);
    }

    method ApproveRecovery(o: OpId, nonce: Nonce, ttl: nat, e: Desk) returns (r: Option<Nonce>)
      requires !store.open
      modifies store
      ensures !store.open
      ensures Transacted(ApproveRecoveryTx(old(store.committed), o, nonce, ttl, e.now), e.busy, old(store.committed), store.committed, r)
      ensures Sound(old(store.committed)) && nonce !in old(store.committed).tickets ==> Sound(store.committed)
    {
      hide Sound, Extends;
      if Sound(store.committed) && nonce !in store.committed.tickets { ApproveRecoveryKeeps(store.committed, o, nonce, ttl, e.now); }
      r := None;
      var began := store.Begin(e.busy);
      if !began { return; }
      if !(1 <= ttl <= 600) || o !in store.draft.operations { store.Rollback(); return; }
      var op := store.draft.operations[o];
      if Terminal(op.phase) || op.instance !in store.draft.instances { store.Rollback(); return; }
      var current := store.draft.instances[op.instance];
      if current.operation != Some(o) || current.fence != op.fence || e.now >= op.recoveryDeadline { store.Rollback(); return; }
      var expires := e.now + ttl as real;
      if expires > op.recoveryDeadline { expires := op.recoveryDeadline; }
      var tickets := PutOnce(store.draft.tickets, nonce, Ticket(o, op.instance, op.fence, current.generation, expires, false));
      if tickets.None? { store.Rollback(); return; }
      store.draft := store.draft.(tickets := tickets.value);
      store.draft := store.draft.(events := store.draft.events + [Event(ForOperation(o), RecoveryApproved)]);
      store.Commit();
      r := Some(nonce);
    }

    /** `recover` up to its commit. */
    method TakeOver(o: OpId, nonce: Nonce, executor: Executor, quiescent: bool, e: Desk) returns (r: Option<Token>)
      requires !store.open
      modifies store
      ensures !store.open
      ensures Transacted(RecoverTx(old(store.committed), o, nonce, executor, quiescent, e.now), e.busy,
                         old(store.committed), store.committed, r)
      ensures Sound(old(store.committed)) ==> Sound(store.committed)
    {
      hide Sound, Extends;
      if Sound(store.committed) { RecoverKeeps(store.committed, o, nonce, executor, quiescent, e.now); }
      r := None;
      var began := store.Begin(e.busy);
      if !began { return; }
      if o !in store.draft.operations { store.Rollback(); return; }
      var op := store.draft.operations[o];
      if Terminal(op.phase) || op.instance !in store.draft.instances { store.Rollback(); return; }
      var current := store.draft.instances[op.instance];
      if current.operation != Some(o) || current.fence != op.fence || nonce !in store.draft.tickets { store.Rollback(); return; }
      var ticket := store.draft.tickets[nonce];
      if ticket.op != o || ticket.instance != op.instance || ticket.fence != op.fence || ticket.generation != current.generation {
        store.Rollback();
        return;
      }
      if ticket.consumed || e.now >= ticket.expires || e.now >= op.recoveryDeadline
         || op.instance !in store.draft.registrations || !quiescent {
        store.Rollback();
        return;
      }
      ticket := ticket.(consumed := true);
      current := current.(fence := current.fence + 1);
      op := op.(fence := current.fence, executor := executor, phase := Recovering);
      store.draft := store.draft.(tickets := store.draft.tickets[nonce := ticket]);
      store.draft := store.draft.(instances := store.draft.instances[op.instance := current]);
      store.draft := store.draft.(operations := store.draft.operations[o := op]);
      store.draft := store.draft.(events := store.draft.events + [Event(ForOperation(o), Reached(Recovering))]);
      store.Commit();
      r := Some(TokenOf(op));
    }

    // ------------------------------------------------------------------- execution

    /** The token names an operation on a service that can be inspected. */
    predicate Visible(db: Db, t: Token)
      reads host
    {
      t.id in db.operations && db.operations[t.id].instance in host.runtimes
    }

    /** `_phase`. */
    method Enter(t: Token, phase: Phase, busy: bool) returns (r: Option<()>)
      requires !store.open
      modifies store
      ensures !store.open
      ensures Transacted(PhaseTx(old(store.committed), t, phase), busy, old(store.committed), store.committed, r)
    {
      r := None;
      var began := store.Begin(busy);
      if !began { return; }
      if Disowned(store.draft, t).Some? || !MayMove(store.draft.operations[t.id].phase, phase) { store.Rollback(); return; }
      var operation := store.draft.operations[t.id];
      operation := operation.(phase := phase);
      store.draft := store.draft.(operations := store.draft.operations[t.id := operation]);
      store.draft := store.draft.(events := store.draft.events + [Event(ForOperation(t.id), Reached(phase))]);
      store.Commit();
      r := Some(());
    }

    /** `_effect`: the store stays locked through the deployment. */
    method Effect(t: Token, restore: bool, e: M.Answers, now: real) returns (ok: bool)
      requires !store.open
      modifies store, host
      ensures !store.open && store.committed == old(store.committed)
      ensures !old(Visible(store.committed, t)) ==>
        !ok && host.runtimes == old(host.runtimes) && host.asked == old(host.asked) && host.serial == old(host.serial)
      ensures old(Visible(store.committed, t)) ==>
        var id := store.committed.operations[t.id].instance;
        var tx := EffectTx(store.committed, t, restore, old(host.runtimes[id]), now, e.gate, e.qualified, e.owns, e.sound);
        if e.busy || tx.Raise? then
          !ok && host.runtimes == old(host.runtimes) && host.asked == old(host.asked) && host.serial == old(host.serial)
        else
          && host.serial == (if e.takes then old(host.serial) + 1 else old(host.serial))
          && ok == !e.raises && host.asked == old(host.asked) + [(id, Digest(tx.value))]
          && host.runtimes == (if e.takes then old(host.runtimes)[id := Runtime(Digest(tx.value), old(host.serial))] else old(host.runtimes))
    {
      ok := false;
      var began := store.Begin(e.busy);
      if !began { return; }
      if Disowned(store.draft, t).Some? || !Visible(store.draft, t) { store.Rollback(); return; }
      var operation := store.draft.operations[t.id];
      var id := operation.instance;
      var observed := host.runtimes[id];
      if id !in store.draft.registrations || now >= DeadlineOf(operation, restore) || (!restore && !e.gate)
         || operation.plan !in store.draft.plans || TargetOf(operation, restore) !in store.draft.specs || !e.qualified || !e.owns {
        store.Rollback();
        return;
      }
      var plan := store.draft.plans[operation.plan];
      if !restore && (!Confirms(observed, plan.baseline, e.sound) || observed.identity != plan.identity) { store.Rollback(); return; }
      host.Deploy(id, store.draft.specs[TargetOf(operation, restore)], e.takes);
      if e.raises { store.Rollback(); } else { store.Commit(); }
      ok := !e.raises;
    }

    /** `_verify`: checks outside any transaction, then the record. */
    method Verify(t: Token, restore: bool, a: Attempt) returns (r: Option<Runtime>)
      requires !store.open
      modifies store
      ensures !store.open
      ensures !Visible(old(store.committed), t) ==> r.None? && store.committed == old(store.committed)
      ensures Visible(old(store.committed), t) ==>
        var seen := host.runtimes[old(store.committed).operations[t.id].instance];
        var tx := VerifyTx(old(store.committed), t, restore, seen, a.verifiedAt, a.verify.owns, a.verify.sound);
        var noted := EvidenceTx(old(store.committed), t, seen);
        if a.verify.busy || tx.Raise? || a.recordBusy || noted.Raise? then r.None? && store.committed == old(store.committed)
        else r == Some(seen) && store.committed == noted.docs
    {
      r := None;
      if !Visible(store.committed, t) { return; }
      var operation := store.committed.operations[t.id];
      var seen := host.runtimes[operation.instance];
      if a.verify.busy || operation.instance !in store.committed.registrations || a.verifiedAt >= DeadlineOf(operation, restore)
         || !Confirms(seen, TargetOf(operation, restore), a.verify.sound) || operation.plan !in store.committed.plans
         || seen.identity == store.committed.plans[operation.plan].identity || !a.verify.owns {
        return;
      }
      var began := store.Begin(a.recordBusy);
      if !began { return; }
      if Disowned(store.draft, t).Some? { store.Rollback(); return; }
      store.draft := store.draft.(evidence := store.draft.evidence[t.id := seen]);
      store.Commit();
      r := Some(seen);
    }

    /** `_commit`. */
    method Commit(t: Token, restore: bool, observed: Runtime, e: M.Answers) returns (r: Option<()>)
      requires !store.open
      modifies store
      ensures !store.open
      ensures !Visible(old(store.committed), t) ==> r.None? && store.committed == old(store.committed)
      ensures Visible(old(store.committed), t) ==>
        Transacted(CommitTx(old(store.committed), t, restore, observed,
                                  host.runtimes[old(store.committed).operations[t.id].instance], e.owns, e.sound),
                         e.busy, old(store.committed), store.committed, r)
    {
      r := None;
      var began := store.Begin(e.busy);
      if !began { return; }
      if Disowned(store.draft, t).Some? || !Visible(store.draft, t) { store.Rollback(); return; }
      var operation := store.draft.operations[t.id];
      var id := operation.instance;
      var current := store.draft.instances[id];
      var latest := host.runtimes[id];
      if id !in store.draft.registrations || !Confirms(latest, observed.spec, e.sound) || latest.identity != observed.identity
         || operation.plan !in store.draft.plans || !e.owns {
        store.Rollback();
        return;
      }
      current := current.(generation := current.generation + 1, operation := None, status := Ready,
                          spec := TargetOf(operation, restore), observation := observed);
      operation := operation.(phase := if restore then RolledBack else Committed);
      store.draft := store.draft.(instances := store.draft.instances[id := current]);
      store.draft := store.draft.(operations := store.draft.operations[t.id := operation]);
      store.draft := store.draft.(events := store.draft.events + [Event(ForOperation(t.id), Reached(operation.phase))]);
      store.Commit();
      r := Some(());
    }

    /** The first transaction of `_rollback`. */
    method Check(t: Token, e: M.Answers) returns (r: Option<bool>)
      requires !store.open
      modifies store
      ensures !store.open
      ensures !Visible(old(store.committed), t) ==> r.None? && store.committed == old(store.committed)
      ensures Visible(old(store.committed), t) ==>
        Transacted(UnchangedTx(old(store.committed), t, host.runtimes[old(store.committed).operations[t.id].instance], e.owns, e.sound),
                         e.busy, old(store.committed), store.committed, r)
    {
      r := None;
      var began := store.Begin(e.busy);
      if !began { return; }
      if Disowned(store.draft, t).Some? || !Visible(store.draft, t) { store.Rollback(); return; }
      var operation := store.draft.operations[t.id];
      var id := operation.instance;
      var current := store.draft.instances[id];
      if id !in store.draft.registrations || operation.plan !in store.draft.plans { store.Rollback(); return; }
      var observed := host.runtimes[id];
      if observed.spec != operation.baseline || observed.identity != store.draft.plans[operation.plan].identity || !e.owns {
        store.Commit();
        return Some(false);
      }
      if !e.sound { store.Rollback(); return; }
      operation := operation.(phase := Unchanged);
      current := current.(operation := None, status := Ready, observation := observed);
      store.draft := store.draft.(instances := store.draft.instances[id := current]);
      store.draft := store.draft.(operations := store.draft.operations[t.id := operation]);
      store.draft := store.draft.(events := store.draft.events + [Event(ForOperation(t.id), Reached(Unchanged))]);
      store.Commit();
      r := Some(true);
    }

    /** The exception handler of `_rollback`. */
    method GiveUp(t: Token, busy: bool) returns (r: Option<()>)
      requires !store.open
      modifies store
      ensures !store.open
      ensures Transacted(GiveUpTx(old(store.committed), t), busy, old(store.committed), store.committed, r)
    {
      r := None;
      var began := store.Begin(busy);
      if !began { return; }
      if Disowned(store.draft, t).Some? { store.Rollback(); return; }
      var operation := store.draft.operations[t.id];
      var current := store.draft.instances[operation.instance];
      operation := operation.(phase := RollbackFailed);
      current := current.(status := RecoveryRequired);
      store.draft := store.draft.(instances := store.draft.instances[operation.instance := current]);
      store.draft := store.draft.(operations := store.draft.operations[t.id := operation]);
      store.draft := store.draft.(events := store.draft.events + [Event(ForOperation(t.id), Reached(RollbackFailed))]);
      store.Commit();
      r := Some(());
    }

    // ---------------------------------------------------------- how executions end

    /** The instance is ready, and recorded exactly as it runs. */
    ghost predicate Rests(op: Operation, generation: nat)
      reads store, host
    {
      var rows := store.committed.instances;
      && op.instance in rows && op.instance in host.runtimes
      && var running := host.runtimes[op.instance];
         rows[op.instance] == Instance(generation, op.fence, running.spec, running, None, Ready)
    }

    /** What the phase an execution returns says about the host; `generation` is the one it
        started from. */
    ghost predicate Ends(op: Operation, generation: nat, phase: Phase)
      reads store, host
    {
      && op.id in store.committed.operations && store.committed.operations[op.id] == op.(phase := phase)
      && match phase
         case Committed =>
           && Rests(op, generation + 1) && host.runtimes[op.instance].spec == op.candidate
           && host.runtimes[op.instance].identity != op.plan.plan.identity
         case RolledBack =>
           && Rests(op, generation + 1) && host.runtimes[op.instance].spec == op.baseline
           && host.runtimes[op.instance].identity != op.plan.plan.identity
         case Unchanged =>
           Rests(op, generation) && host.runtimes[op.instance] == Runtime(op.baseline, op.plan.plan.identity)
         case RollbackFailed =>
           && op.instance in store.committed.instances
           && store.committed.instances[op.instance].operation == Some(op.id)
           && store.committed.instances[op.instance].status == RecoveryRequired
         case _ => false
    }

    /** Verification and commit. */
    method Land(t: Token, restore: bool, a: Attempt) returns (ok: bool)
      requires !store.open && Sound(store.committed) && Disowned(store.committed, t).None?
      modifies store
      ensures !store.open && Sound(store.committed) && Worked(old(store.committed), store.committed, t)
      ensures ok ==> Ends(old(store.committed).operations[t.id], old(store.committed).instances[old(store.committed).operations[t.id].instance].generation,
                          if restore then RolledBack else Committed)
      ensures !ok ==> Held(old(store.committed), store.committed, t) && store.committed.operations == old(store.committed).operations
      ensures Visible(old(store.committed), t) ==>
        var op := old(store.committed).operations[t.id]; ok <==> Lands(op, host.runtimes[op.instance], restore, a)
    {
      hide VerifyTx, EvidenceTx, CommitTx, Sound, Extends;
      ghost var db := store.committed;
      HeldItself(db, t);
      KnownById(db, t.id);
      if Visible(db, t) { VerifyExactly(db, t, restore, host.runtimes[db.operations[t.id].instance], a); }
      ok := false;
      var seen := Verify(t, restore, a);
      if seen.None? { return; }
      VerifyShows(db, t, restore, seen.value, a.verifiedAt, a.verify.owns, a.verify.sound);
      EvidenceKeeps(db, t, seen.value);
      EvidenceHolds(db, t, seen.value);
      ghost var noted := store.committed;
      CommitExactly(noted, t, restore, seen.value, a.commit.owns, a.commit.sound);
      CommitKeeps(noted, t, restore, seen.value, host.runtimes[db.operations[t.id].instance], a.commit.owns, a.commit.sound);
      var done := Commit(t, restore, seen.value, a.commit);
      if done.None? { return; }
      CommitWorks(noted, t, restore, seen.value, host.runtimes[db.operations[t.id].instance], a.commit.owns, a.commit.sound);
      WorkedThrough(db, noted, store.committed, t);
      ok := true;
    }

    /** The effect deploys the operation's own baseline or candidate, on its own instance. */
    method Strike(t: Token, restore: bool, a: Attempt) returns (ok: bool)
      requires !store.open && Sound(store.committed) && Disowned(store.committed, t).None?
      modifies store, host
      ensures !store.open && store.committed == old(store.committed)
      ensures var op := store.committed.operations[t.id];
        && Elsewhere(old(host.runtimes), host.runtimes, op.instance)
        && MayAsk(old(host.asked), host.asked, op.instance, TargetOf(op, restore))
      ensures old(Visible(store.committed, t)) ==>
        var op := store.committed.operations[t.id];
        var seen := old(host.runtimes)[op.instance];
        && (ok <==> Deploys(op, seen, restore, a) && !a.effect.raises)
        && op.instance in host.runtimes && host.runtimes[op.instance] == Running(op, seen, old(host.serial), restore, a)
        && host.serial == Serial(op, seen, old(host.serial), restore, a)
        && host.asked == old(host.asked) + Struck(op, seen, restore, a)
      ensures !old(Visible(store.committed, t)) ==> !ok && host.runtimes == old(host.runtimes) && host.asked == old(host.asked)
    {
      hide EffectTx, Sound;
      if Visible(store.committed, t) {
        EffectExactly(store.committed, t, restore, host.runtimes[store.committed.operations[t.id].instance], a);
      }
      ok := Effect(t, restore, a.effect, a.effectAt);
      if host.asked != old(host.asked) {
        var id := store.committed.operations[t.id].instance;
        EffectIsTarget(store.committed, t, restore, old(host.runtimes)[id], a.effectAt,
                       a.effect.gate, a.effect.qualified, a.effect.owns, a.effect.sound);
      }
    }

    /** Forward, the effect is followed by "verifying". */
    method Proceed(t: Token, restore: bool, busy: bool) returns (ok: bool)
      requires !store.open && Sound(store.committed) && Disowned(store.committed, t).None?
      modifies store
      ensures !store.open && Sound(store.committed) && Held(old(store.committed), store.committed, t)
      ensures var phase := old(store.committed).operations[t.id].phase;
        && (ok <==> restore || (!busy && phase == Applying))
        && store.committed.operations[t.id].phase == (if ok && !restore then Verifying else phase)
    {
      hide PhaseTx, Sound, Extends;
      HeldItself(store.committed, t);
      PhaseExactly(store.committed, t, Verifying);
      ok := true;
      if !restore {
        PhaseKeeps(store.committed, t, Verifying);
        PhaseHolds(store.committed, t, Verifying);
        var entered := Enter(t, Verifying, busy);
        ok := entered.Some?;
      }
    }

    /** The body of either `try`: effect, verification, commit. */
    method Carry(t: Token, restore: bool, a: Attempt) returns (ok: bool)
      requires !store.open && Sound(store.committed) && Disowned(store.committed, t).None?
      modifies store, host
      ensures !store.open && Sound(store.committed) && Worked(old(store.committed), store.committed, t)
      ensures var op := old(store.committed).operations[t.id];
        && Elsewhere(old(host.runtimes), host.runtimes, op.instance)
        && MayAsk(old(host.asked), host.asked, op.instance, TargetOf(op, restore))
        && (ok ==> Ends(op, old(store.committed).instances[op.instance].generation, if restore then RolledBack else Committed))
      ensures !ok ==> Held(old(store.committed), store.committed, t)
      ensures old(Visible(store.committed, t)) ==>
        var op := old(store.committed).operations[t.id];
        var seen := old(host.runtimes)[op.instance];
        && (ok <==> Carries(op, seen, old(host.serial), restore, a))
        && op.instance in host.runtimes && host.runtimes[op.instance] == Running(op, seen, old(host.serial), restore, a)
        && host.serial == Serial(op, seen, old(host.serial), restore, a)
        && host.asked == old(host.asked) + Struck(op, seen, restore, a)
        && (!ok ==> store.committed.operations[t.id].phase == if restore then op.phase else Reaches(op, seen, a))
      ensures !old(Visible(store.committed, t)) ==>
        && !ok && store.committed == old(store.committed)
        && host.runtimes == old(host.runtimes) && host.asked == old(host.asked)
    {
      hide Sound;
      ghost var db := store.committed;
      HeldItself(db, t);
      ok := Strike(t, restore, a);
      if !ok { return; }
      ok := Proceed(t, restore, a.phaseBusy);
      if !ok { return; }
      ghost var mid := store.committed;
      ok := Land(t, restore, a);
      WorkedThrough(db, mid, store.committed, t);
    }

    /** `_rollback`. `None` is an exception that escapes it. */
    method Rollback(t: Token, c: Course) returns (r: Option<Phase>)
      requires !store.open && Sound(store.committed)
      modifies store, host
      ensures !store.open && Sound(store.committed)
      ensures Disowned(old(store.committed), t).Some? ==>
        r.None? && store.committed == old(store.committed) && host.runtimes == old(host.runtimes) && host.asked == old(host.asked)
      ensures Disowned(old(store.committed), t).None? ==>
        var op := old(store.committed).operations[t.id];
        && Worked(old(store.committed), store.committed, t)
        && Elsewhere(old(host.runtimes), host.runtimes, op.instance)
        && MayAsk(old(host.asked), host.asked, op.instance, op.baseline)
        && (r.None? ==> Held(old(store.committed), store.committed, t))
        && (r.Some? ==> r.value != Committed && Ends(op, old(store.committed).instances[op.instance].generation, r.value))
        && (r == Some(Unchanged) ==> host.runtimes == old(host.runtimes) && host.asked == old(host.asked))
      ensures Disowned(old(store.committed), t).None? && old(Visible(store.committed, t)) ==>
        var op := old(store.committed).operations[t.id];
        var seen := old(host.runtimes)[op.instance];
        && RollsBack(op, seen, old(host.serial), c, r)
        && op.instance in host.runtimes && host.runtimes[op.instance] == RunningBack(op, seen, old(host.serial), c)
        && host.asked == old(host.asked) + AskedFor(op, seen, c)
      ensures Disowned(old(store.committed), t).None? && !old(Visible(store.committed, t)) ==>
        r == (if c.giveUpBusy then None else Some(RollbackFailed)) && host.asked == old(host.asked)
    {
      hide UnchangedTx, Sound, Extends, Carries, Deploys, Lands;
      ghost var db := store.committed;
      if Disowned(db, t).None? { HeldItself(db, t); }
      var untouched := Examine(t, c);
      if untouched.Some? && untouched.value { return Some(Unchanged); }
      var ok := false;
      if untouched.Some? { ok := Retreat(t, c); }
      if ok { return Some(RolledBack); }
      ghost var mid := store.committed;
      r := Surrender(t, c.giveUpBusy);
      if r.Some? { WorkedThrough(db, mid, store.committed, t); }
    }

    /** The check: the operation ends on an untouched baseline, and nothing happens otherwise. */
    method Examine(t: Token, c: Course) returns (untouched: Option<bool>)
      requires !store.open && Sound(store.committed)
      modifies store
      ensures !store.open && Sound(store.committed)
      ensures !(untouched.Some? && untouched.value) ==> store.committed == old(store.committed)
      ensures untouched.Some? ==> Disowned(old(store.committed), t).None? && Visible(old(store.committed), t)
      ensures untouched.Some? && untouched.value ==>
        var op := old(store.committed).operations[t.id];
        Worked(old(store.committed), store.committed, t) && Ends(op, old(store.committed).instances[op.instance].generation, Unchanged)
      ensures Disowned(old(store.committed), t).None? && Visible(old(store.committed), t) ==>
        var op := old(store.committed).operations[t.id];
        var seen := host.runtimes[op.instance];
        && (untouched.Some? && untouched.value <==> Untouched(op, seen, c))
        && (untouched.Some? && !untouched.value <==> !c.check.busy && !(AsPlanned(op, seen) && c.check.owns))
    {
      hide UnchangedTx, Sound, Extends;
      ghost var db := store.committed;
      if Disowned(db, t).None? { KnownById(db, t.id); }
      if Visible(db, t) {
        UnchangedKeeps(db, t, host.runtimes[db.operations[t.id].instance], c.check.owns, c.check.sound);
        UnchangedTells(db, t, host.runtimes[db.operations[t.id].instance], c.check.owns, c.check.sound);
        if Disowned(db, t).None? { CheckExactly(db, t, host.runtimes[db.operations[t.id].instance], c); }
      }
      untouched := Check(t, c.check);
    }

    /** A failed way back: "rollback_failed", with the instance left to a recovery. */
    method Surrender(t: Token, busy: bool) returns (r: Option<Phase>)
      requires !store.open && Sound(store.committed)
      modifies store
      ensures !store.open && Sound(store.committed)
      ensures r.None? ==> store.committed == old(store.committed)
      ensures Disowned(old(store.committed), t).None? ==> (r.Some? <==> !busy)
      ensures r.Some? ==>
        && r.value == RollbackFailed && Disowned(old(store.committed), t).None? && Worked(old(store.committed), store.committed, t)
        && Ends(old(store.committed).operations[t.id],
                old(store.committed).instances[old(store.committed).operations[t.id].instance].generation, r.value)
    {
      hide GiveUpTx, Sound, Extends;
      ghost var db := store.committed;
      if Disowned(db, t).None? { KnownById(db, t.id); }
      GiveUpKeeps(db, t);
      GiveUpWorks(db, t);
      var gave := GiveUp(t, busy);
      if gave.None? { return None; }
      r := Some(RollbackFailed);
    }

    /** The way back: "rolling_back", then the restoring attempt. */
    method Retreat(t: Token, c: Course) returns (ok: bool)
      requires !store.open && Sound(store.committed) && Disowned(store.committed, t).None?
      modifies store, host
      ensures !store.open && Sound(store.committed) && Worked(old(store.committed), store.committed, t)
      ensures var op := old(store.committed).operations[t.id];
        && Elsewhere(old(host.runtimes), host.runtimes, op.instance)
        && MayAsk(old(host.asked), host.asked, op.instance, op.baseline)
        && (ok ==> Ends(op, old(store.committed).instances[op.instance].generation, RolledBack))
      ensures !ok ==> Held(old(store.committed), store.committed, t)
      ensures old(Visible(store.committed, t)) ==>
        var op := old(store.committed).operations[t.id];
        var seen := old(host.runtimes)[op.instance];
        var enters := !c.retreatBusy && op.phase in {Phase.Reserved, Applying, Verifying, Recovering};
        && (ok <==> enters && Carries(op, seen, old(host.serial), true, c.back))
        && op.instance in host.runtimes
        && host.runtimes[op.instance] == (if enters then Running(op, seen, old(host.serial), true, c.back) else seen)
        && host.asked == old(host.asked) + (if enters then Struck(op, seen, true, c.back) else [])
    {
      hide PhaseTx, Sound, Extends;
      ghost var db := store.committed;
      HeldItself(db, t);
      PhaseExactly(db, t, RollingBack);
      PhaseKeeps(db, t, RollingBack);
      PhaseHolds(db, t, RollingBack);
      var entered := Enter(t, RollingBack, c.retreatBusy);
      if entered.None? { return false; }
      ghost var mid := store.committed;
      ok := Carry(t, true, c.back);
      WorkedThrough(db, mid, store.committed, t);
    }

    /** `execute`. A reserved operation is deployed at most once and restored at most once,
        and what the call returns is what the host runs; any other token is refused. */
    method Execute(t: Token, c: Course) returns (r: Option<Phase>)
      requires !store.open && Sound(store.committed)
      modifies store, host
      ensures !store.open && Sound(store.committed)
      ensures Disowned(old(store.committed), t).Some? || old(store.committed).operations[t.id].phase != Phase.Reserved ==>
        r.None? && store.committed == old(store.committed) && host.runtimes == old(host.runtimes) && host.asked == old(host.asked)
      ensures Disowned(old(store.committed), t).None? ==>
        var op := old(store.committed).operations[t.id];
        && Worked(old(store.committed), store.committed, t)
        && Elsewhere(old(host.runtimes), host.runtimes, op.instance)
        && Asked(old(host.asked), host.asked, op)
        && (r.None? ==> Held(old(store.committed), store.committed, t))
        && (r.Some? ==> Ends(op, old(store.committed).instances[op.instance].generation, r.value))
      ensures Disowned(old(store.committed), t).None? && old(store.committed).operations[t.id].phase == Phase.Reserved
              && old(Visible(store.committed, t)) ==>
        var op := old(store.committed).operations[t.id];
        var seen := old(host.runtimes)[op.instance];
        && Executes(op, seen, old(host.serial), c, r)
        && op.instance in host.runtimes && host.runtimes[op.instance] == RunningAfter(op, seen, old(host.serial), c)
        && host.asked == old(host.asked) + AllAsked(op, seen, old(host.serial), c)
    {
      hide PhaseTx, Sound, Extends, Asked, Carries, Running, RollsBack, RunningBack, AskedFor, Serial, Struck, Reaches;
      if Disowned(store.committed, t).None? { PhaseExactly(store.committed, t, Applying); }
      ghost var db := store.committed;
      if Disowned(db, t).None? { HeldItself(db, t); AskedNothing(host.asked, db.operations[t.id]); }
      PhaseKeeps(db, t, Applying);
      PhaseHolds(db, t, Applying);
      var entered := Enter(t, Applying, c.startBusy);
      if entered.None? { return None; }
      ghost var mid := store.committed;
      var ok := Carry(t, false, c.forward);
      WorkedThrough(db, mid, store.committed, t);
      AskedForward(old(host.asked), host.asked, db.operations[t.id]);
      if ok { return Some(Committed); }
      ghost var late, asked := store.committed, host.asked;
      r := Rollback(t, c);
      AskedBack(old(host.asked), asked, host.asked, db.operations[t.id]);
      WorkedThrough(db, late, store.committed, t);
    }

    /** `recover`: the new executor goes straight to `_rollback`, under its own fence. */
    method Recover(o: OpId, nonce: Nonce, executor: Executor, quiescent: bool, e: Desk, c: Course) returns (r: Option<Phase>)
      requires !store.open && Sound(store.committed)
      modifies store, host
      ensures !store.open && Sound(store.committed)
      ensures var tx := RecoverTx(old(store.committed), o, nonce, executor, quiescent, e.now);
        if e.busy || tx.Raise? then
          r.None? && store.committed == old(store.committed) && host.runtimes == old(host.runtimes) && host.asked == old(host.asked)
        else
          && tx.value.id in tx.docs.operations
          && var op := tx.docs.operations[tx.value.id];
             && Worked(tx.docs, store.committed, tx.value)
             && Elsewhere(old(host.runtimes), host.runtimes, op.instance)
             && MayAsk(old(host.asked), host.asked, op.instance, op.baseline)
             && (r.None? ==> Held(tx.docs, store.committed, tx.value))
             && (r.Some? ==> r.value != Committed && op.instance in tx.docs.instances
                             && Ends(op, tx.docs.instances[op.instance].generation, r.value))
             && (op.instance in old(host.runtimes) ==>
                   var seen := old(host.runtimes)[op.instance];
                   && RollsBack(op, seen, old(host.serial), c, r)
                   && op.instance in host.runtimes && host.runtimes[op.instance] == RunningBack(op, seen, old(host.serial), c)
                   && host.asked == old(host.asked) + AskedFor(op, seen, c))
    {
      hide RecoverTx, Sound, Extends, RollsBack, RunningBack, AskedFor;
      RecoverKeeps(store.committed, o, nonce, executor, quiescent, e.now);
      ghost var tx := RecoverTx(store.committed, o, nonce, executor, quiescent, e.now);
      if tx.Done? { TakenOver(store.committed, o, nonce, executor, quiescent, e.now); }
      var taken := TakeOver(o, nonce, executor, quiescent, e);
      if taken.None? { return None; }
      r := Rollback(taken.value, c);
    }
  }

  lemma UnchangedTells(db: Db, t: Token, seen: Runtime, owns: bool, sound: bool)
    requires Sound(db)
    ensures var tx := UnchangedTx(db, t, seen, owns, sound);
            && (tx.Done? ==> Disowned(db, t).None?)
            && (tx.Done? && !tx.value ==> tx.docs == db)
            && (tx.Done? && tx.value ==>
                  && Worked(db, tx.docs, t) && tx.docs.operations[t.id].phase == Unchanged
                  && var op := db.operations[t.id];
                     && seen == Runtime(op.baseline, op.plan.plan.identity)
                     && tx.docs.instances[op.instance] ==
                          Instance(db.instances[op.instance].generation, t.fence, op.baseline, seen, None, Ready))
  {
    hide UnchangedTx, Sound;
    var tx := UnchangedTx(db, t, seen, owns, sound);
    if tx.Done? {
      UnchangedShape(db, t, seen, owns, sound);
      if tx.value { UnchangedWorks(db, t, seen, owns, sound); }
    }
  }

  /** The new token owns the operation it took over. */
  lemma TakenOver(db: Db, o: OpId, nonce: Nonce, executor: Executor, quiescent: bool, now: real)
    requires Sound(db) && RecoverTx(db, o, nonce, executor, quiescent, now).Done?
    ensures var tx := RecoverTx(db, o, nonce, executor, quiescent, now);
            tx.value.id == o && Disowned(tx.docs, tx.value).None?
  {
    hide RecoverTx, Sound;
    RecoverShape(db, o, nonce, executor, quiescent, now);
    KnownById(db, o);
    RecoverToken(db, o, nonce, executor, quiescent, now);
  }
}
