/**
 What every transaction of the controller and of the grant authority keeps.
 */
module ControllerInvariants {
  import opened Schema
  import opened ControllerModel

  type Rows = map<InstanceId, Instance>
  type Operations = map<OpId, Operation>

  // ------------------------------------------------------- instances, operations

  /** An operation next to the row of its instance. */
  ghost predicate OperationOk(rows: Rows, op: Operation) {
    var plan := op.plan.plan;
    && op.instance == plan.instance && op.baseline == plan.baseline && op.candidate == plan.candidate
    && op.instance in rows
    && var i := rows[op.instance];
       && plan.fence < op.fence <= i.fence
       && (!Terminal(op.phase) ==> i.operation == Some(op.id) && op.fence == i.fence)
       && (Terminal(op.phase) && op.fence == i.fence ==>
             && i.operation == None
             && (op.phase == Committed ==> i.generation == plan.generation + 1 && i.spec == op.candidate))
  }

  ghost predicate InstanceOk(operations: Operations, id: InstanceId, i: Instance) {
    && i.observation.spec == i.spec
    && match i.operation
       case None => i.status == Ready
       case Some(o) =>
         && o in operations && i.status != Ready
         && var op := operations[o];
            && op.instance == id && !Terminal(op.phase) && op.fence == i.fence && op.baseline == i.spec
            && op.plan.plan.identity == i.observation.identity && op.plan.plan.generation == i.generation
  }

  ghost predicate Coupled(rows: Rows, operations: Operations) {
    && (forall o | o in operations :: operations[o].id == o && OperationOk(rows, operations[o]))
    && (forall id | id in rows :: InstanceOk(operations, id, rows[id]))
  }

  // ------------------------------------------------------ registrations and plans

  ghost predicate SpecsOk(specs: map<SpecHash, Spec>) {
    forall h | h in specs :: specs[h] == h.content
  }

  /** A plan that is not behind its instance still names its process identity. */
  ghost predicate PlanOk(rows: Rows, specs: map<SpecHash, Spec>, p: PlanId) {
    && p.plan.instance in rows && p.plan.baseline in specs && p.plan.candidate in specs
    && var i := rows[p.plan.instance];
       && p.plan.fence <= i.fence && p.plan.generation <= i.generation
       && (p.plan.fence == i.fence && p.plan.generation == i.generation ==> p.plan.identity == i.observation.identity)
  }

  ghost predicate PlansOk(plans: map<PlanId, Plan>, rows: Rows, specs: map<SpecHash, Spec>) {
    forall p | p in plans :: plans[p] == p.plan && PlanOk(rows, specs, p)
  }

  ghost predicate Enrolled(rows: Rows, registrations: map<InstanceId, Registration>, specs: map<SpecHash, Spec>) {
    forall id | id in rows :: id in registrations && rows[id].spec in specs
  }

  ghost predicate FromPlans(operations: Operations, plans: map<PlanId, Plan>) {
    forall o | o in operations :: operations[o].plan in plans
  }

  // -------------------------------------------------------------- one-use secrets

  /** Every plan reserves at most one operation, and never a cancelled one. */
  ghost predicate OneShot(operations: Operations, cancelled: set<PlanId>) {
    && (forall a, b | a in operations && b in operations && operations[a].plan == operations[b].plan :: a == b)
    && (forall o | o in operations :: operations[o].plan !in cancelled)
  }

  ghost function Consumed(approvals: map<Nonce, Approval>): set<Nonce> {
    set n | n in approvals && approvals[n].consumed
  }

  ghost predicate TicketOk(rows: Rows, t: Ticket) {
    && t.instance in rows && t.fence <= rows[t.instance].fence
    && (t.consumed ==> t.fence < rows[t.instance].fence)
  }

  /** At most one recovery approval is consumed per fence. */
  ghost predicate TicketsOk(tickets: map<Nonce, Ticket>, rows: Rows) {
    && (forall n | n in tickets :: TicketOk(rows, tickets[n]))
    && (forall a, b | a in tickets && b in tickets && tickets[a].consumed && tickets[b].consumed
                      && tickets[a].instance == tickets[b].instance && tickets[a].fence == tickets[b].fence :: a == b)
  }

  /** What a grant and the lease claimed with it say about their operation. */
  ghost predicate Bound(operations: Operations, id: InstanceId, o: OpId, fence: nat, executor: Executor,
                        generation: nat, spec: SpecHash)
  {
    && o in operations
    && var op := operations[o];
       && op.instance == id && fence <= op.fence && (fence == op.fence ==> executor == op.executor)
       && generation == op.plan.plan.generation + 1 && spec == op.candidate
  }

  ghost predicate GrantOk(operations: Operations, g: Grant) {
    Bound(operations, g.instance, g.op, g.fence, g.executor, g.targetGeneration, g.targetSpec)
  }

  ghost predicate LeaseOk(operations: Operations, l: Lease) {
    Bound(operations, l.instance, l.op, l.fence, l.executor, l.targetGeneration, l.targetSpec)
  }

  ghost predicate GrantsOk(grants: map<Nonce, Grant>, leases: map<LeaseId, Lease>, operations: Operations) {
    && (forall n | n in grants :: GrantOk(operations, grants[n]))
    && (forall n | n in leases :: LeaseOk(operations, leases[n]))
  }

  ghost predicate Sound(db: Db) {
    && SpecsOk(db.specs) && PlansOk(db.plans, db.instances, db.specs)
    && Enrolled(db.instances, db.registrations, db.specs) && FromPlans(db.operations, db.plans)
    && Coupled(db.instances, db.operations)
    && OneShot(db.operations, db.cancelled)
    && TicketsOk(db.tickets, db.instances)
    && GrantsOk(db.grants, db.leases, db.operations)
    && |Consumed(db.approvals)| == |db.operations|
  }

  lemma EmptySound()
    ensures Sound(EMPTY)
  {
    assert Consumed(EMPTY.approvals) == {};
  }

  // ------------------------------------------------------------------- extension

  /** Instances never disappear, fences and generations never fall, and a new process
      identity shows in one of them. */
  ghost predicate RowsGrow(rows: Rows, rows': Rows) {
    forall id | id in rows :: id in rows' && Grows(rows[id], rows'[id])
  }

  ghost predicate Grows(i: Instance, i': Instance) {
    && i'.fence >= i.fence && i'.generation >= i.generation
    && (i'.fence == i.fence && i'.generation == i.generation ==> i'.observation.identity == i.observation.identity)
  }

  /** What an operation was planned to do never changes; a terminal one never changes at
      all, and none returns to `reserved`. */
  ghost predicate Ages(op: Operation, op': Operation) {
    && op'.instance == op.instance && op'.plan == op.plan && op'.baseline == op.baseline && op'.candidate == op.candidate
    && op'.deadline == op.deadline && op'.recoveryDeadline == op.recoveryDeadline
    && op'.fence >= op.fence && (op'.fence == op.fence ==> op'.executor == op.executor)
    && (op'.phase == Reserved ==> op.phase == Reserved)
    && (Terminal(op.phase) ==> op' == op)
  }

  ghost predicate OperationsAge(operations: Operations, operations': Operations) {
    forall o | o in operations :: o in operations' && Ages(operations[o], operations'[o])
  }

  ghost predicate Extends(db: Db, db': Db) {
    RowsGrow(db.instances, db'.instances) && OperationsAge(db.operations, db'.operations)
  }

  lemma GrowthKeepsTickets(tickets: map<Nonce, Ticket>, rows: Rows, rows': Rows)
    requires TicketsOk(tickets, rows) && RowsGrow(rows, rows')
    ensures TicketsOk(tickets, rows')
  {
    forall n | n in tickets
      ensures TicketOk(rows', tickets[n])
    {
      assert TicketOk(rows, tickets[n]);
    }
  }

  lemma GrowthKeepsPlans(plans: map<PlanId, Plan>, rows: Rows, rows': Rows, specs: map<SpecHash, Spec>)
    requires PlansOk(plans, rows, specs) && RowsGrow(rows, rows')
    ensures PlansOk(plans, rows', specs)
  {
    forall p | p in plans
      ensures PlanOk(rows', specs, p)
    {
      assert PlanOk(rows, specs, p);
    }
  }

  lemma AgingKeepsGrants(grants: map<Nonce, Grant>, leases: map<LeaseId, Lease>, operations: Operations, operations': Operations)
    requires GrantsOk(grants, leases, operations) && OperationsAge(operations, operations')
    ensures GrantsOk(grants, leases, operations')
  {
    forall n | n in grants
      ensures GrantOk(operations', grants[n])
    {
      assert GrantOk(operations, grants[n]);
    }
    forall n | n in leases
      ensures LeaseOk(operations', leases[n])
    {
      assert LeaseOk(operations, leases[n]);
    }
  }

  /** Coupling survives when one instance and its current, or a new, operation change. */
  lemma LocalChange(rows: Rows, operations: Operations, id: InstanceId, i: Instance, o: OpId, op: Operation)
    requires Coupled(rows, operations) && id in rows && op.id == o && op.instance == id
    requires i.fence >= rows[id].fence
    requires if o in operations then rows[id].operation == Some(o) else rows[id].operation == None && i.fence > rows[id].fence
    requires OperationOk(rows[id := i], op) && InstanceOk(operations[o := op], id, i)
    ensures Coupled(rows[id := i], operations[o := op])
  {
    var rows', operations' := rows[id := i], operations[o := op];
    assert InstanceOk(operations, id, rows[id]);
    forall p | p in operations'
      ensures operations'[p].id == p && OperationOk(rows', operations'[p])
    {
      if p != o { assert OperationOk(rows, operations[p]); OtherOperation(rows, operations, id, i, o, operations[p]); }
    }
    forall j | j in rows'
      ensures InstanceOk(operations', j, rows'[j])
    {
      if j != id { assert InstanceOk(operations, j, rows[j]); }
    }
  }

  lemma OtherOperation(rows: Rows, operations: Operations, id: InstanceId, i: Instance, o: OpId, op: Operation)
    requires op.id in operations && operations[op.id] == op && op.id != o && id in rows
    requires OperationOk(rows, op) && i.fence >= rows[id].fence
    requires InstanceOk(operations, id, rows[id])
    requires if o in operations then rows[id].operation == Some(o) else rows[id].operation == None && i.fence > rows[id].fence
    ensures OperationOk(rows[id := i], op)
  {}

  // ----------------------------------------------------------- enrolment and plans

  ghost predicate SameSecrets(db: Db, db': Db) {
    && db'.tickets == db.tickets && db'.grants == db.grants && db'.leases == db.leases
    && db'.approvals == db.approvals && db'.cancelled == db.cancelled
  }

  ghost predicate SameCore(db: Db, db': Db) {
    && db'.specs == db.specs && db'.plans == db.plans && db'.registrations == db.registrations
    && db'.instances == db.instances && db'.operations == db.operations
  }

  lemma SideTablesKeep(db: Db, db': Db)
    requires Sound(db) && SameCore(db, db')
    requires OneShot(db'.operations, db'.cancelled) && |Consumed(db'.approvals)| == |db'.operations|
    requires TicketsOk(db'.tickets, db'.instances) && GrantsOk(db'.grants, db'.leases, db'.operations)
    ensures Sound(db') && Extends(db, db')
  {
    hide Consumed, TicketsOk, GrantsOk, Enrolled, FromPlans, Coupled;
  }

  ghost predicate NewRow(db: Db, db': Db, id: InstanceId) {
    && SameSecrets(db, db') && db'.plans == db.plans && db'.operations == db.operations
    && id !in db.instances && id in db'.instances && db'.instances == db.instances[id := db'.instances[id]]
    && db'.instances[id].operation == None && db'.instances[id].status == Ready
    && db'.instances[id].observation.spec == db'.instances[id].spec
    && id in db'.registrations && db'.registrations == db.registrations[id := db'.registrations[id]]
    && var h := db'.instances[id].spec; db'.specs == db.specs[h := h.content]
  }

  lemma RegisterRows(db: Db, id: InstanceId, registration: Registration, baseline: Spec, seen: Runtime,
                     qualified: bool, sound: bool, elsewhere: bool)
    requires RegisterTx(db, id, registration, baseline, seen, qualified, sound, elsewhere).Done?
    ensures NewRow(db, RegisterTx(db, id, registration, baseline, seen, qualified, sound, elsewhere).docs, id)
  {}

  lemma NewInstance(rows: Rows, operations: Operations, id: InstanceId, i: Instance)
    requires Coupled(rows, operations) && id !in rows
    requires i.operation == None && i.status == Ready && i.observation.spec == i.spec
    ensures Coupled(rows[id := i], operations)
  {
    forall o | o in operations
      ensures OperationOk(rows[id := i], operations[o])
    {
      assert OperationOk(rows, operations[o]);
    }
  }

  lemma MoreSpecs(plans: map<PlanId, Plan>, rows: Rows, specs: map<SpecHash, Spec>, h: SpecHash, spec: Spec)
    requires PlansOk(plans, rows, specs)
    ensures PlansOk(plans, rows, specs[h := spec])
  {
    forall p | p in plans
      ensures PlanOk(rows, specs[h := spec], p)
    {
      assert PlanOk(rows, specs, p);
    }
  }

  lemma NewRowKeeps(db: Db, db': Db, id: InstanceId)
    requires Sound(db) && NewRow(db, db', id)
    ensures Sound(db') && Extends(db, db')
  {
    hide Coupled, FromPlans, OneShot, TicketsOk;
    var h := db'.instances[id].spec;
    GrowthKeepsTickets(db.tickets, db.instances, db'.instances);
    GrowthKeepsPlans(db.plans, db.instances, db'.instances, db.specs);
    MoreSpecs(db.plans, db'.instances, db.specs, h, h.content);
    NewInstance(db.instances, db.operations, id, db'.instances[id]);
  }

  lemma RegisterKeeps(db: Db, id: InstanceId, registration: Registration, baseline: Spec, seen: Runtime,
                      qualified: bool, sound: bool, elsewhere: bool)
    requires Sound(db)
    ensures var db' := After(RegisterTx(db, id, registration, baseline, seen, qualified, sound, elsewhere), db);
            Sound(db') && Extends(db, db')
  {
    hide Enrolled, FromPlans, Coupled, OneShot, TicketsOk, GrantsOk, Consumed, Sound;
    var tx := RegisterTx(db, id, registration, baseline, seen, qualified, sound, elsewhere);
    if tx.Done? {
      RegisterRows(db, id, registration, baseline, seen, qualified, sound, elsewhere);
      NewRowKeeps(db, tx.docs, id);
    }
  }

  ghost predicate NewPlan(db: Db, db': Db, p: PlanId) {
    && SameSecrets(db, db') && db'.registrations == db.registrations
    && db'.instances == db.instances && db'.operations == db.operations
    && p.plan.baseline in db.specs && db'.plans == db.plans[p := p.plan]
    && db'.specs == db.specs[p.plan.candidate := p.plan.candidate.content]
    && p.plan.instance in db.instances
    && var i := db.instances[p.plan.instance];
       p.plan.fence == i.fence && p.plan.generation == i.generation && p.plan.identity == i.observation.identity
  }

  lemma PlanRows(db: Db, id: InstanceId, action: Action, candidate: Spec, seen: Runtime, budget: Budget,
                 now: real, qualified: bool, sound: bool)
    requires PlanTx(db, id, action, candidate, seen, budget, now, qualified, sound).Done?
    ensures var tx := PlanTx(db, id, action, candidate, seen, budget, now, qualified, sound); NewPlan(db, tx.docs, tx.value)
  {}

  lemma NewPlanFits(db: Db, db': Db, p: PlanId)
    requires PlansOk(db.plans, db.instances, db.specs) && NewPlan(db, db', p)
    ensures PlansOk(db'.plans, db'.instances, db'.specs)
  {
    MoreSpecs(db.plans, db.instances, db.specs, p.plan.candidate, p.plan.candidate.content);
    assert PlanOk(db'.instances, db'.specs, p);
  }

  lemma NewPlanKeeps(db: Db, db': Db, p: PlanId)
    requires Sound(db) && NewPlan(db, db', p)
    ensures Sound(db') && Extends(db, db')
  {
    hide Coupled, TicketsOk, GrantsOk, PlansOk, OneShot;
    NewPlanFits(db, db', p);
  }

  lemma PlanKeeps(db: Db, id: InstanceId, action: Action, candidate: Spec, seen: Runtime, budget: Budget,
                  now: real, qualified: bool, sound: bool)
    requires Sound(db)
    ensures var db' := After(PlanTx(db, id, action, candidate, seen, budget, now, qualified, sound), db);
            Sound(db') && Extends(db, db')
  {
    hide FromPlans, Coupled, OneShot, TicketsOk, GrantsOk, Consumed, ValidBudget, Sound;
    var tx := PlanTx(db, id, action, candidate, seen, budget, now, qualified, sound);
    if tx.Done? {
      PlanRows(db, id, action, candidate, seen, budget, now, qualified, sound);
      NewPlanKeeps(db, tx.docs, tx.value);
    }
  }

  lemma ApproveRows(db: Db, p: PlanId, nonce: Nonce, now: real)
    requires nonce !in db.approvals
    ensures var db' := After(ApproveTx(db, p, nonce, now), db);
            && SameCore(db, db') && SameSecrets(db.(approvals := db'.approvals), db')
            && Consumed(db'.approvals) == Consumed(db.approvals)
  {
    hide Consumed;
    var tx := ApproveTx(db, p, nonce, now);
    if tx.Done? {
      assert tx.docs.approvals == db.approvals[nonce := tx.docs.approvals[nonce]] && !tx.docs.approvals[nonce].consumed;
      FreshApproval(db.approvals, nonce, tx.docs.approvals[nonce]);
    }
  }

  lemma FreshApproval(approvals: map<Nonce, Approval>, n: Nonce, a: Approval)
    requires n !in approvals && !a.consumed
    ensures Consumed(approvals[n := a]) == Consumed(approvals)
  {}

  lemma ApproveKeeps(db: Db, p: PlanId, nonce: Nonce, now: real)
    requires Sound(db) && nonce !in db.approvals
    ensures var db' := After(ApproveTx(db, p, nonce, now), db); Sound(db') && Extends(db, db')
  {
    ApproveRows(db, p, nonce, now);
    SideTablesKeep(db, After(ApproveTx(db, p, nonce, now), db));
  }

  lemma CancelRows(db: Db, p: PlanId)
    ensures var db' := After(CancelTx(db, p), db);
            && SameCore(db, db') && SameSecrets(db.(cancelled := db'.cancelled), db')
            && (OneShot(db.operations, db.cancelled) ==> OneShot(db.operations, db'.cancelled))
  {
    var tx := CancelTx(db, p);
    if tx.Done? && p !in db.cancelled { assert forall o | o in db.operations :: db.operations[o].plan != p; }
  }

  lemma CancelKeeps(db: Db, p: PlanId)
    requires Sound(db)
    ensures var db' := After(CancelTx(db, p), db); Sound(db') && Extends(db, db')
  {
    CancelRows(db, p);
    SideTablesKeep(db, After(CancelTx(db, p), db));
  }

  // ----------------------------------------------------- one instance, one operation

  /** The tables that no move of an instance and its operation touches. */
  ghost predicate SameLibrary(db: Db, db': Db) {
    && db'.specs == db.specs && db'.plans == db.plans && db'.registrations == db.registrations
    && db'.grants == db.grants && db'.leases == db.leases && db'.cancelled == db.cancelled
  }

  /** An instance keeps to known specifications while it and one operation change. */
  ghost predicate Moved(db: Db, db': Db, o: OpId) {
    && SameLibrary(db, db') && Extends(db, db')
    && Coupled(db'.instances, db'.operations)
    && o in db'.operations && db'.operations == db.operations[o := db'.operations[o]]
    && (forall id | id in db'.instances ::
          id in db.instances && (db'.instances[id].spec == db.instances[id].spec || db'.instances[id].spec in db.specs))
    && (o in db.operations ==> db'.operations[o].plan == db.operations[o].plan)
  }

  lemma MovedKeeps(db: Db, db': Db, o: OpId)
    requires Sound(db) && Moved(db, db', o) && db'.operations[o].plan in db.plans
    requires TicketsOk(db'.tickets, db'.instances) && OneShot(db'.operations, db.cancelled)
    requires |Consumed(db'.approvals)| == |db'.operations|
    ensures Sound(db')
  {
    hide Coupled, TicketOk, OperationOk, InstanceOk, PlanOk, GrantOk, LeaseOk, RowsGrow, OperationsAge, Terminal,
      Bound, Grows, Ages, OneShot, Consumed, SpecsOk, PlansOk, GrantsOk;
    GrowthKeepsPlans(db.plans, db.instances, db'.instances, db.specs);
    AgingKeepsGrants(db.grants, db.leases, db.operations, db'.operations);
  }

  lemma SameCount(db: Db, db': Db, o: OpId)
    requires o in db.operations && Moved(db, db', o) && OneShot(db.operations, db.cancelled)
    ensures |db'.operations| == |db.operations| && OneShot(db'.operations, db.cancelled)
  {
    assert db'.operations.Keys == db.operations.Keys;
  }

  lemma SteppedKeeps(db: Db, db': Db, o: OpId)
    requires Sound(db) && Moved(db, db', o) && o in db.operations && SameSecrets(db, db')
    ensures Sound(db')
  {
    hide Coupled, OneShot;
    SameCount(db, db', o);
    GrowthKeepsTickets(db.tickets, db.instances, db'.instances);
    MovedKeeps(db, db', o);
  }

  /** A plan that already has an operation is behind the instance's fence. */
  lemma BeginKeepsOneShot(rows: Rows, operations: Operations, cancelled: set<PlanId>, o: OpId, op: Operation)
    requires Coupled(rows, operations) && OneShot(operations, cancelled) && o !in operations && op.plan !in cancelled
    requires op.plan.plan.instance in rows && rows[op.plan.plan.instance].fence == op.plan.plan.fence
    ensures OneShot(operations[o := op], cancelled)
  {
    forall q | q in operations
      ensures operations[q].plan != op.plan
    {
      assert OperationOk(rows, operations[q]);
    }
  }

  lemma ConsumeOne(approvals: map<Nonce, Approval>, n: Nonce)
    requires n in approvals && !approvals[n].consumed
    ensures |Consumed(approvals[n := approvals[n].(consumed := true)])| == |Consumed(approvals)| + 1
  {
    assert Consumed(approvals[n := approvals[n].(consumed := true)]) == Consumed(approvals) + {n};
  }

  lemma OneMore(operations: Operations, o: OpId, op: Operation)
    requires o !in operations
    ensures |operations[o := op]| == |operations| + 1
  {
    assert operations[o := op].Keys == operations.Keys + {o};
  }

  /** The reserved operation and its instance's new row. */
  lemma BegunPair(db: Db, p: PlanId, nonce: Nonce, expected: Option<Action>, seen: Runtime, sound: bool,
                  o: OpId, executor: Executor, now: real)
    requires BeginTx(db, p, nonce, expected, seen, sound, o, executor, now).Done?
    requires db.plans[p] == p.plan && PlanOk(db.instances, db.specs, p) && InstanceOk(db.operations, p.plan.instance, db.instances[p.plan.instance])
    ensures var tx := BeginTx(db, p, nonce, expected, seen, sound, o, executor, now);
            var id := p.plan.instance;
            && id in db.instances && db.instances[id].operation == None && id in tx.docs.instances
            && tx.docs.instances == db.instances[id := tx.docs.instances[id]] && tx.docs.operations == db.operations[o := tx.value]
            && tx.docs.instances[id].fence > db.instances[id].fence && Grows(db.instances[id], tx.docs.instances[id])
            && tx.docs.instances[id].spec == db.instances[id].spec && tx.value.id == o && tx.value.instance == id && tx.value.plan == p
            && OperationOk(tx.docs.instances, tx.value) && InstanceOk(tx.docs.operations, id, tx.docs.instances[id])
            && SameLibrary(db, tx.docs)
  {}

  lemma BegunRows(db: Db, p: PlanId, nonce: Nonce, expected: Option<Action>, seen: Runtime, sound: bool,
                  o: OpId, executor: Executor, now: real)
    requires Coupled(db.instances, db.operations) && o !in db.operations
    requires BeginTx(db, p, nonce, expected, seen, sound, o, executor, now).Done?
    requires db.plans[p] == p.plan && PlanOk(db.instances, db.specs, p)
    ensures Moved(db, BeginTx(db, p, nonce, expected, seen, sound, o, executor, now).docs, o)
  {
    hide BeginTx, Coupled, OperationOk, InstanceOk;
    var tx := BeginTx(db, p, nonce, expected, seen, sound, o, executor, now);
    var id := p.plan.instance;
    CoupledRow(db.instances, db.operations, id);
    BegunPair(db, p, nonce, expected, seen, sound, o, executor, now);
    LocalChange(db.instances, db.operations, id, tx.docs.instances[id], o, tx.value);
  }

  lemma CoupledRow(rows: Rows, operations: Operations, id: InstanceId)
    requires Coupled(rows, operations) && id in rows
    ensures InstanceOk(operations, id, rows[id])
  {}

  /** What `begin` took from the plan and the approval it consumed. */
  ghost predicate Started(db: Db, db': Db, p: PlanId, nonce: Nonce, o: OpId) {
    && p in db.plans && p !in db.cancelled && p.plan.instance in db.instances
    && db.instances[p.plan.instance].fence == p.plan.fence
    && nonce in db.approvals && !db.approvals[nonce].consumed
    && db'.approvals == db.approvals[nonce := db.approvals[nonce].(consumed := true)]
    && db'.tickets == db.tickets && o in db'.operations && db'.operations[o].plan == p
  }

  lemma BegunSecrets(db: Db, p: PlanId, nonce: Nonce, expected: Option<Action>, seen: Runtime, sound: bool,
                     o: OpId, executor: Executor, now: real)
    requires BeginTx(db, p, nonce, expected, seen, sound, o, executor, now).Done? && db.plans[p] == p.plan
    ensures Started(db, BeginTx(db, p, nonce, expected, seen, sound, o, executor, now).docs, p, nonce, o)
  {}

  lemma StartedKeeps(db: Db, db': Db, p: PlanId, nonce: Nonce, o: OpId)
    requires Sound(db) && o !in db.operations && Moved(db, db', o) && Started(db, db', p, nonce, o)
    ensures Sound(db')
  {
    hide Coupled, RowsGrow;
    GrowthKeepsTickets(db.tickets, db.instances, db'.instances);
    BeginKeepsOneShot(db.instances, db.operations, db.cancelled, o, db'.operations[o]);
    ConsumeOne(db.approvals, nonce);
    OneMore(db.operations, o, db'.operations[o]);
    MovedKeeps(db, db', o);
  }

  lemma BeginKeeps(db: Db, p: PlanId, nonce: Nonce, expected: Option<Action>, seen: Runtime, sound: bool,
                   o: OpId, executor: Executor, now: real)
    requires Sound(db) && o !in db.operations
    ensures var db' := After(BeginTx(db, p, nonce, expected, seen, sound, o, executor, now), db);
            Sound(db') && Extends(db, db')
  {
    hide Enrolled, FromPlans, Coupled, OneShot, TicketsOk, GrantsOk, Consumed;
    var tx := BeginTx(db, p, nonce, expected, seen, sound, o, executor, now);
    if tx.Done? {
      BegunRows(db, p, nonce, expected, seen, sound, o, executor, now);
      BegunSecrets(db, p, nonce, expected, seen, sound, o, executor, now);
      StartedKeeps(db, tx.docs, p, nonce, o);
    }
  }

  // ------------------------------------------------------------------- execution

  /** What owning a token means in coupled tables. */
  lemma OwnerIsCurrent(db: Db, t: Token)
    requires Coupled(db.instances, db.operations) && Disowned(db, t).None?
    ensures var op := db.operations[t.id];
            && op.id == t.id && OperationOk(db.instances, op) && InstanceOk(db.operations, op.instance, db.instances[op.instance])
            && db.instances[op.instance].operation == Some(t.id)
  {}

  /** The owned operation takes a phase, and its instance a row at the same fence. */
  lemma PhaseMoves(db: Db, t: Token, i: Instance, phase: Phase)
    requires Coupled(db.instances, db.operations) && Disowned(db, t).None? && phase != Reserved
    requires var op := db.operations[t.id].(phase := phase);
             && i.fence == db.instances[op.instance].fence && Grows(db.instances[op.instance], i)
             && (i.spec == db.instances[op.instance].spec || i.spec in db.specs)
             && OperationOk(db.instances[op.instance := i], op)
             && InstanceOk(db.operations[t.id := op], op.instance, i)
    ensures var db' := SetPhase(db.(instances := db.instances[db.operations[t.id].instance := i]), t.id, phase);
            Moved(db, db', t.id) && SameSecrets(db, db')
  {
    hide Coupled;
    OwnerIsCurrent(db, t);
    var op := db.operations[t.id].(phase := phase);
    LocalChange(db.instances, db.operations, op.instance, i, t.id, op);
  }

  lemma SameRow(db: Db, id: InstanceId)
    requires id in db.instances
    ensures db.(instances := db.instances[id := db.instances[id]]) == db
  {
    assert db.instances[id := db.instances[id]] == db.instances;
  }

  lemma PhaseRows(db: Db, t: Token, phase: Phase)
    requires Coupled(db.instances, db.operations) && phase in {Applying, Verifying, RollingBack} && PhaseTx(db, t, phase).Done?
    ensures var db' := PhaseTx(db, t, phase).docs; Moved(db, db', t.id) && SameSecrets(db, db')
  {
    hide Moved, SameSecrets, SetPhase, SameLibrary, Coupled;
    OwnerIsCurrent(db, t);
    var id := db.operations[t.id].instance;
    PhaseMoves(db, t, db.instances[id], phase);
    SameRow(db, id);
  }

  lemma PhaseKeeps(db: Db, t: Token, phase: Phase)
    requires Sound(db) && phase in {Applying, Verifying, RollingBack}
    ensures var db' := After(PhaseTx(db, t, phase), db); Sound(db') && Extends(db, db')
  {
    hide FromPlans, Coupled, OneShot, TicketOk, GrantOk, LeaseOk;
    var tx := PhaseTx(db, t, phase);
    if tx.Done? {
      PhaseRows(db, t, phase);
      SteppedKeeps(db, tx.docs, t.id);
    }
  }

  lemma EvidenceRows(db: Db, t: Token, seen: Runtime)
    ensures var db' := After(EvidenceTx(db, t, seen), db); SameCore(db, db') && SameSecrets(db, db')
  {
    hide Disowned, Terminal;
  }

  lemma EvidenceKeeps(db: Db, t: Token, seen: Runtime)
    requires Sound(db)
    ensures var db' := After(EvidenceTx(db, t, seen), db); Sound(db') && Extends(db, db')
  {
    EvidenceRows(db, t, seen);
    SideTablesKeep(db, After(EvidenceTx(db, t, seen), db));
  }

  lemma CommitRows(db: Db, t: Token, restore: bool, observed: Runtime, latest: Runtime, owns: bool, sound: bool)
    requires Coupled(db.instances, db.operations) && CommitTx(db, t, restore, observed, latest, owns, sound).Done?
    requires observed.spec == TargetOf(db.operations[t.id], restore) && TargetOf(db.operations[t.id], restore) in db.specs
    ensures var db' := CommitTx(db, t, restore, observed, latest, owns, sound).docs; Moved(db, db', t.id) && SameSecrets(db, db')
  {
    hide Coupled, Moved;
    OwnerIsCurrent(db, t);
    var tx := CommitTx(db, t, restore, observed, latest, owns, sound);
    PhaseMoves(db, t, tx.docs.instances[db.operations[t.id].instance], if restore then RolledBack else Committed);
  }

  lemma TargetIsKnown(db: Db, o: OpId, restore: bool)
    requires Sound(db) && o in db.operations
    ensures TargetOf(db.operations[o], restore) in db.specs
  {
    assert OperationOk(db.instances, db.operations[o]) && PlanOk(db.instances, db.specs, db.operations[o].plan);
  }

  lemma CommitKeeps(db: Db, t: Token, restore: bool, observed: Runtime, latest: Runtime, owns: bool, sound: bool)
    requires Sound(db)
    requires t.id in db.operations ==> observed.spec == TargetOf(db.operations[t.id], restore)
    ensures var db' := After(CommitTx(db, t, restore, observed, latest, owns, sound), db); Sound(db') && Extends(db, db')
  {
    hide Coupled, PlansOk, TicketsOk, GrantsOk, OneShot;
    var tx := CommitTx(db, t, restore, observed, latest, owns, sound);
    if tx.Done? {
      TargetIsKnown(db, t.id, restore);
      CommitRows(db, t, restore, observed, latest, owns, sound);
      SteppedKeeps(db, tx.docs, t.id);
    }
  }

  lemma UnchangedRows(db: Db, t: Token, seen: Runtime, owns: bool, sound: bool)
    requires Coupled(db.instances, db.operations) && UnchangedTx(db, t, seen, owns, sound).Done?
    requires UnchangedTx(db, t, seen, owns, sound).value
    requires db.plans[db.operations[t.id].plan] == db.operations[t.id].plan.plan
    ensures var db' := UnchangedTx(db, t, seen, owns, sound).docs; Moved(db, db', t.id) && SameSecrets(db, db')
  {
    OwnerIsCurrent(db, t);
    var tx := UnchangedTx(db, t, seen, owns, sound);
    PhaseMoves(db, t, tx.docs.instances[db.operations[t.id].instance], Unchanged);
  }

  lemma UnchangedKeeps(db: Db, t: Token, seen: Runtime, owns: bool, sound: bool)
    requires Sound(db)
    ensures var db' := After(UnchangedTx(db, t, seen, owns, sound), db); Sound(db') && Extends(db, db')
  {
    hide Coupled, TicketsOk, GrantsOk, OneShot, Enrolled, FromPlans, Consumed, LeaseOk, PlanOk, Terminal;
    var tx := UnchangedTx(db, t, seen, owns, sound);
    if tx.Done? && tx.value {
      assert db.operations[t.id].plan in db.plans;
      hide Coupled, Extends;
      UnchangedRows(db, t, seen, owns, sound);
      SteppedKeeps(db, tx.docs, t.id);
    }
  }

  lemma GiveUpRows(db: Db, t: Token)
    requires Coupled(db.instances, db.operations) && GiveUpTx(db, t).Done?
    ensures var db' := GiveUpTx(db, t).docs; Moved(db, db', t.id) && SameSecrets(db, db')
  {
    OwnerIsCurrent(db, t);
    PhaseMoves(db, t, GiveUpTx(db, t).docs.instances[db.operations[t.id].instance], RollbackFailed);
  }

  lemma GiveUpKeeps(db: Db, t: Token)
    requires Sound(db)
    ensures var db' := After(GiveUpTx(db, t), db); Sound(db') && Extends(db, db')
  {
    hide Enrolled, FromPlans, Coupled, OneShot, TicketsOk, GrantsOk, Consumed;
    var tx := GiveUpTx(db, t);
    if tx.Done? {
      GiveUpRows(db, t);
      SteppedKeeps(db, tx.docs, t.id);
    }
  }

  // -------------------------------------------------------------------- recovery

  lemma ApproveRecoveryRows(db: Db, o: OpId, nonce: Nonce, ttl: nat, now: real)
    requires Coupled(db.instances, db.operations) && TicketsOk(db.tickets, db.instances) && nonce !in db.tickets
    ensures var db' := After(ApproveRecoveryTx(db, o, nonce, ttl, now), db);
            SameCore(db, db') && SameSecrets(db.(tickets := db'.tickets), db') && TicketsOk(db'.tickets, db.instances)
  {
    hide Coupled;
    var tx := ApproveRecoveryTx(db, o, nonce, ttl, now);
    if tx.Done? {
      forall n | n in tx.docs.tickets
        ensures TicketOk(db.instances, tx.docs.tickets[n])
      {
        if n != nonce { assert TicketOk(db.instances, db.tickets[n]); }
      }
    }
  }

  lemma ApproveRecoveryKeeps(db: Db, o: OpId, nonce: Nonce, ttl: nat, now: real)
    requires Sound(db) && nonce !in db.tickets
    ensures var db' := After(ApproveRecoveryTx(db, o, nonce, ttl, now), db); Sound(db') && Extends(db, db')
  {
    ApproveRecoveryRows(db, o, nonce, ttl, now);
    SideTablesKeep(db, After(ApproveRecoveryTx(db, o, nonce, ttl, now), db));
  }

  lemma RecoverKeepsTickets(tickets: map<Nonce, Ticket>, rows: Rows, nonce: Nonce, id: InstanceId, i: Instance)
    requires TicketsOk(tickets, rows) && nonce in tickets && id in rows
    requires tickets[nonce].instance == id && tickets[nonce].fence == rows[id].fence && i.fence == rows[id].fence + 1
    ensures TicketsOk(tickets[nonce := tickets[nonce].(consumed := true)], rows[id := i])
  {
    var tickets' := tickets[nonce := tickets[nonce].(consumed := true)];
    forall n | n in tickets'
      ensures TicketOk(rows[id := i], tickets'[n])
      ensures n != nonce && tickets[n].consumed && tickets[n].instance == id ==> tickets[n].fence < rows[id].fence
    {
      assert TicketOk(rows, tickets[n]);
    }
  }

  lemma RecoverShape(db: Db, o: OpId, nonce: Nonce, executor: Executor, quiescent: bool, now: real)
    requires RecoverTx(db, o, nonce, executor, quiescent, now).Done?
    ensures o in db.operations && db.operations[o].instance in db.instances
    ensures var db' := RecoverTx(db, o, nonce, executor, quiescent, now).docs;
            var op := db.operations[o];
            var i := db.instances[op.instance];
            && !Terminal(op.phase) && i.operation == Some(o) && op.fence == i.fence && SameLibrary(db, db')
            && db'.instances == db.instances[op.instance := i.(fence := i.fence + 1)]
            && db'.operations == db.operations[o := op.(fence := i.fence + 1, executor := executor, phase := Recovering)]
  {}

  lemma HandedOver(rows: Rows, operations: Operations, o: OpId, executor: Executor)
    requires Coupled(rows, operations) && o in operations && !Terminal(operations[o].phase)
    ensures var op := operations[o];
            && op.instance in rows && rows[op.instance].fence == op.fence
            && Coupled(rows[op.instance := rows[op.instance].(fence := op.fence + 1)],
                       operations[o := op.(fence := op.fence + 1, executor := executor, phase := Recovering)])
  {
    var op := operations[o];
    assert OperationOk(rows, op) && InstanceOk(operations, op.instance, rows[op.instance]);
    hide Coupled;
    LocalChange(rows, operations, op.instance, rows[op.instance].(fence := op.fence + 1), o,
                op.(fence := op.fence + 1, executor := executor, phase := Recovering));
  }

  lemma RecoveredRows(db: Db, o: OpId, nonce: Nonce, executor: Executor, quiescent: bool, now: real)
    requires Coupled(db.instances, db.operations) && RecoverTx(db, o, nonce, executor, quiescent, now).Done?
    ensures Moved(db, RecoverTx(db, o, nonce, executor, quiescent, now).docs, o)
  {
    hide RecoverTx, Coupled;
    RecoverShape(db, o, nonce, executor, quiescent, now);
    HandedOver(db.instances, db.operations, o, executor);
  }

  lemma RecoveredSecrets(db: Db, o: OpId, nonce: Nonce, executor: Executor, quiescent: bool, now: real)
    requires TicketsOk(db.tickets, db.instances) && RecoverTx(db, o, nonce, executor, quiescent, now).Done?
    ensures var db' := RecoverTx(db, o, nonce, executor, quiescent, now).docs;
            TicketsOk(db'.tickets, db'.instances) && db'.approvals == db.approvals && o in db.operations
  {
    var db' := RecoverTx(db, o, nonce, executor, quiescent, now).docs;
    var id := db.operations[o].instance;
    RecoverKeepsTickets(db.tickets, db.instances, nonce, id, db'.instances[id]);
  }

  lemma RecoverKeeps(db: Db, o: OpId, nonce: Nonce, executor: Executor, quiescent: bool, now: real)
    requires Sound(db)
    ensures var db' := After(RecoverTx(db, o, nonce, executor, quiescent, now), db); Sound(db') && Extends(db, db')
  {
    hide OneShot, TicketsOk, GrantsOk, Consumed, InstanceOk, TicketOk, GrantOk;
    var tx := RecoverTx(db, o, nonce, executor, quiescent, now);
    if tx.Done? {
      RecoveredRows(db, o, nonce, executor, quiescent, now);
      RecoveredSecrets(db, o, nonce, executor, quiescent, now);
      SameCount(db, tx.docs, o);
      MovedKeeps(db, tx.docs, o);
    }
  }

  // --------------------------------------------------------- launch grants, leases

  lemma MintRows(db: Db, t: Token, nonce: Nonce, command: string, owner: Uid, ttl: nat, now: real)
    requires Coupled(db.instances, db.operations) && GrantsOk(db.grants, db.leases, db.operations) && nonce !in db.grants
    ensures var db' := After(MintTx(db, t, nonce, command, owner, ttl, now), db);
            && SameCore(db, db') && SameSecrets(db.(grants := db'.grants), db')
            && GrantsOk(db'.grants, db.leases, db.operations)
  {
    hide OperationOk;
    var tx := MintTx(db, t, nonce, command, owner, ttl, now);
    if tx.Done? {
      assert OperationOk(db.instances, db.operations[t.id]);
      assert InstanceOk(db.operations, db.operations[t.id].instance, db.instances[db.operations[t.id].instance]);
      assert GrantOk(db.operations, tx.docs.grants[nonce]);
    }
  }

  lemma MintKeeps(db: Db, t: Token, nonce: Nonce, command: string, owner: Uid, ttl: nat, now: real)
    requires Sound(db) && nonce !in db.grants
    ensures var db' := After(MintTx(db, t, nonce, command, owner, ttl, now), db); Sound(db') && Extends(db, db')
  {
    MintRows(db, t, nonce, command, owner, ttl, now);
    SideTablesKeep(db, After(MintTx(db, t, nonce, command, owner, ttl, now), db));
  }

  lemma ClaimRows(db: Db, nonce: Nonce, peer: Peer, command: string, id: LeaseId, now: real)
    requires GrantsOk(db.grants, db.leases, db.operations) && id !in db.leases
    ensures var db' := After(ClaimTx(db, nonce, peer, command, id, now), db);
            && SameCore(db, db') && SameSecrets(db.(grants := db'.grants, leases := db'.leases), db')
            && GrantsOk(db'.grants, db'.leases, db.operations)
  {
    var tx := ClaimTx(db, nonce, peer, command, id, now);
    if tx.Done? {
      assert GrantOk(db.operations, db.grants[nonce]);
      assert GrantOk(db.operations, tx.docs.grants[nonce]) && LeaseOk(db.operations, tx.docs.leases[id]);
    }
  }

  lemma ClaimKeeps(db: Db, nonce: Nonce, peer: Peer, command: string, id: LeaseId, now: real)
    requires Sound(db) && id !in db.leases
    ensures var db' := After(ClaimTx(db, nonce, peer, command, id, now), db); Sound(db') && Extends(db, db')
  {
    ClaimRows(db, nonce, peer, command, id, now);
    SideTablesKeep(db, After(ClaimTx(db, nonce, peer, command, id, now), db));
  }

  lemma RetireRows(db: Db, id: LeaseId, peer: Peer)
    requires GrantsOk(db.grants, db.leases, db.operations)
    ensures var db' := After(RetireTx(db, id, peer), db);
            && SameCore(db, db') && SameSecrets(db.(leases := db'.leases), db')
            && GrantsOk(db'.grants, db'.leases, db.operations)
  {
    var tx := RetireTx(db, id, peer);
    if tx.Done? { assert LeaseOk(db.operations, db.leases[id]) && LeaseOk(db.operations, tx.docs.leases[id]); }
  }

  lemma RetireKeeps(db: Db, id: LeaseId, peer: Peer)
    requires Sound(db)
    ensures var db' := After(RetireTx(db, id, peer), db); Sound(db') && Extends(db, db')
  {
    RetireRows(db, id, peer);
    SideTablesKeep(db, After(RetireTx(db, id, peer), db));
  }
}
