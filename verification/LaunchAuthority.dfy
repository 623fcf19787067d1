/**
 `LaunchGrantAuthority` as it runs on the controller's store. A guard keeps the
 transaction open for as long as its critical section lasts.
 */
module LaunchAuthority {
  import opened Schema
  import opened Durable
  import opened ControllerModel
  import opened ControllerInvariants
  import opened ControllerLeases

  class LaunchGrantAuthority {
    const store: Store<Db>

    constructor (store: Store<Db>)
      ensures this.store == store
    {
      this.store := store;
    }

    method Mint(t: Token, nonce: Nonce, command: string, owner: Uid, ttl: nat, now: real, busy: bool) returns (r: Option<Nonce>)
      requires !store.open
      modifies store
      ensures !store.open
      ensures Transacted(MintTx(old(store.committed), t, nonce, command, owner, ttl, now), busy, old(store.committed), store.committed, r)
      ensures Sound(old(store.committed)) && nonce !in old(store.committed).grants ==> Sound(store.committed)
    {
      hide Sound, Extends;
      if Sound(store.committed) && nonce !in store.committed.grants { MintKeeps(store.committed, t, nonce, command, owner, ttl, now); }
      r := None;
      if !(1 <= ttl <= 300) { return; }
      var began := store.Begin(busy);
      if !began { return; }
      if t.id !in store.draft.operations { store.Rollback(); return; }
      var operation := store.draft.operations[t.id];
      if operation.instance !in store.draft.instances || operation.instance !in store.draft.registrations { store.Rollback(); return; }
      var instance := store.draft.instances[operation.instance];
      if operation.fence != t.fence || operation.executor != t.executor || instance.fence != t.fence || instance.operation != Some(t.id)
         || owner !in store.draft.registrations[operation.instance].owners {
        store.Rollback();
        return;
      }
      var grant := Grant(operation.instance, t.id, operation.fence, operation.executor, instance.generation + 1, operation.candidate,
                         command, owner, now + ttl as real, false);
      var grants := PutOnce(store.draft.grants, nonce, grant);
      if grants.None? { store.Rollback(); return; }
      store.draft := store.draft.(grants := grants.value);
      store.draft := store.draft.(events := store.draft.events + [Event(ForOperation(t.id), GrantIssued)]);
      store.Commit();
      r := Some(nonce);
    }

    method Claim(nonce: Nonce, peer: Peer, command: string, id: LeaseId, now: real, busy: bool) returns (r: Option<LeaseId>)
      requires !store.open
      modifies store
      ensures !store.open
      ensures Transacted(ClaimTx(old(store.committed), nonce, peer, command, id, now), busy, old(store.committed), store.committed, r)
      ensures Sound(old(store.committed)) && id !in old(store.committed).leases ==> Sound(store.committed)
    {
      hide Sound, Extends;
      if Sound(store.committed) && id !in store.committed.leases { ClaimKeeps(store.committed, nonce, peer, command, id, now); }
      r := None;
      var began := store.Begin(busy);
      if !began { return; }
      if nonce !in store.draft.grants { store.Rollback(); return; }
      var grant := store.draft.grants[nonce];
      if grant.consumed || now >= grant.expires || grant.owner != peer.uid || grant.command != command
         || grant.op !in store.draft.operations || grant.instance !in store.draft.instances {
        store.Rollback();
        return;
      }
      var operation := store.draft.operations[grant.op];
      var instance := store.draft.instances[grant.instance];
      if instance.operation != Some(grant.op) || instance.fence != grant.fence || operation.fence != grant.fence
         || operation.executor != grant.executor {
        store.Rollback();
        return;
      }
      grant := grant.(consumed := true);
      var lease := Lease(grant.instance, grant.op, grant.fence, grant.executor, grant.targetGeneration, grant.targetSpec, command, peer, false);
      var leases := PutOnce(store.draft.leases, id, lease);
      if leases.None? { store.Rollback(); return; }
      store.draft := store.draft.(grants := store.draft.grants[nonce := grant]);
      store.draft := store.draft.(leases := leases.value);
      store.draft := store.draft.(events := store.draft.events + [Event(ForOperation(grant.op), GrantClaimed)]);
      store.Commit();
      r := Some(id);
    }

    /** The guard on entry: the lease is the peer's own and passes the fence test, and the
        store stays locked, so that it passes for as long as the section lasts. */
    method Enter(id: LeaseId, peer: Peer, busy: bool) returns (r: Option<Lease>)
      requires !store.open
      modifies store
      ensures store.committed == old(store.committed) && store.open == r.Some?
      ensures r.Some? <==> !busy && GuardTx(store.committed, id, peer).Done?
      ensures r.Some? ==> store.draft == store.committed && r.value == store.committed.leases[id] && Passes(store.committed, r.value)
    {
      r := None;
      var began := store.Begin(busy);
      if !began { return; }
      if id !in store.draft.leases { store.Rollback(); return; }
      var lease := store.draft.leases[id];
      if lease.retired || lease.peer != peer || lease.instance !in store.draft.instances || lease.op !in store.draft.operations {
        store.Rollback();
        return;
      }
      var instance := store.draft.instances[lease.instance];
      var operation := store.draft.operations[lease.op];
      var changing := instance.operation == Some(lease.op) && instance.fence == lease.fence && operation.executor == lease.executor;
      var committed := instance.operation == None && instance.fence == lease.fence && instance.generation == lease.targetGeneration
                       && instance.spec == lease.targetSpec && operation.phase == Committed;
      if !changing && !committed { store.Rollback(); return; }
      r := Some(lease);
    }

    /** The end of the critical section. */
    method Leave()
      requires store.open
      modifies store
      ensures !store.open && store.committed == old(store.draft)
    {
      store.Commit();
    }

    method Retire(id: LeaseId, peer: Peer, busy: bool) returns (r: Option<()>)
      requires !store.open
      modifies store
      ensures !store.open
      ensures Transacted(RetireTx(old(store.committed), id, peer), busy, old(store.committed), store.committed, r)
      ensures Sound(old(store.committed)) ==> Sound(store.committed)
    {
      hide Sound, Extends;
      if Sound(store.committed) { RetireKeeps(store.committed, id, peer); }
      r := None;
      var lease := Enter(id, peer, busy);
      if lease.None? { return; }
      store.draft := store.draft.(leases := store.draft.leases[id := lease.value.(retired := true)]);
      store.Commit();
      r := Some(());
    }
  }

  /** A lease just claimed passes its guard, and its grant is spent for everybody. */
  lemma ClaimedPasses(db: Db, nonce: Nonce, peer: Peer, command: string, id: LeaseId, now: real)
    requires ClaimTx(db, nonce, peer, command, id, now).Done?
    ensures var db' := ClaimTx(db, nonce, peer, command, id, now).docs;
            && GuardTx(db', id, peer).Done? && id in db'.leases && db'.leases[id].peer == peer && db'.leases[id].command == command
            && nonce in db'.grants && db'.grants[nonce].consumed
  {}

  lemma SpentIsRefused(db: Db, nonce: Nonce)
    requires nonce in db.grants && db.grants[nonce].consumed
    ensures forall peer, command, id, now :: ClaimTx(db, nonce, peer, command, id, now).Raise?
  {}

  /** Retiring changes one lease, which is refused from then on. */
  lemma RetiredIsRefused(db: Db, id: LeaseId, peer: Peer)
    requires RetireTx(db, id, peer).Done?
    ensures var db' := RetireTx(db, id, peer).docs;
            db'.grants == db.grants && id in db'.leases && db'.leases[id].retired && forall other :: GuardTx(db', id, other).Raise?
  {}

  /** One spawn or signal of the host's adapter, and the documents it was made under. */
  datatype Deed = Deed(lease: LeaseId, db: Db)

  /** What the adapter may do for a peer: nothing without that peer's lease of that command,
      passing the fence test at that very moment. */
  ghost predicate Licensed(d: Deed, peer: Peer, command: string) {
    && d.lease in d.db.leases
    && var l := d.db.leases[d.lease];
       !l.retired && l.peer == peer && l.command == command && Passes(d.db, l)
  }

  /** However the documents grow after a claim, its grant is spent, and where the guard opens
      the peer is licensed. */
  lemma StillLicensed(db: Db, nonce: Nonce, peer: Peer, command: string, id: LeaseId, now: real, later: Db)
    requires ClaimTx(db, nonce, peer, command, id, now).Done? && LeasesGrow(ClaimTx(db, nonce, peer, command, id, now).docs, later)
    ensures nonce in later.grants && later.grants[nonce].consumed
    ensures GuardTx(later, id, peer).Done? ==> Licensed(Deed(id, later), peer, command)
    ensures forall p, c, i, t :: ClaimTx(later, nonce, p, c, i, t).Raise?
  {
    ClaimedPasses(db, nonce, peer, command, id, now);
    hide ClaimTx;
    SpentIsRefused(later, nonce);
  }

  lemma RetiredStaysSpent(db: Db, id: LeaseId, peer: Peer, nonce: Nonce)
    requires nonce in db.grants && db.grants[nonce].consumed
    ensures var db' := After(RetireTx(db, id, peer), db);
            && (forall p, c, i, t :: ClaimTx(db', nonce, p, c, i, t).Raise?)
            && (RetireTx(db, id, peer).Done? ==> forall other :: GuardTx(db', id, other).Raise?)
  {
    hide RetireTx, GuardTx, ClaimTx;
    if RetireTx(db, id, peer).Done? { RetiredIsRefused(db, id, peer); }
    SpentIsRefused(After(RetireTx(db, id, peer), db), nonce);
  }

  /** How a step finds the store: the documents, and whether it is busy. */
  datatype Pace = Pace(docs: Db, busy: bool)

  /** What other processes did since a claim: they rewrite no lease and revive no grant, as
      `ControllerLeases.RunMatches` says of every run. */
  ghost predicate Onward(db: Db, steps: seq<Pace>, last: Pace) {
    (forall p | p in steps :: LeasesGrow(db, p.docs)) && LeasesGrow(db, last.docs)
  }

  /** How many steps get through before the first that is refused. */
  ghost function Passed(id: LeaseId, peer: Peer, steps: seq<Pace>): (n: nat)
    ensures n <= |steps|
  {
    if steps == [] || steps[0].busy || GuardTx(steps[0].docs, id, peer).Raise? then 0 else 1 + Passed(id, peer, steps[1..])
  }

  /** The deeds of so many steps, each under the documents of its own moment. */
  ghost function Made(id: LeaseId, steps: seq<Pace>): seq<Deed> {
    if steps == [] then [] else [Deed(id, steps[0].docs)] + Made(id, steps[1..])
  }

  lemma {:induction false} MadeGrows(id: LeaseId, steps: seq<Pace>, p: Pace)
    ensures Made(id, steps + [p]) == Made(id, steps) + [Deed(id, p.docs)]
  {
    if steps != [] {
      MadeGrows(id, steps[1..], p);
      assert (steps + [p])[1..] == steps[1..] + [p];
    }
  }

  lemma {:induction false} MadePassed(id: LeaseId, peer: Peer, steps: seq<Pace>, d: Deed)
    requires d in Made(id, steps[..Passed(id, peer, steps)])
    ensures d.lease == id && GuardTx(d.db, id, peer).Done? && exists p | p in steps :: d.db == p.docs
  {
    hide GuardTx;
    var n := Passed(id, peer, steps);
    assert steps[..n][1..] == steps[1..][..n - 1];
    if d != Deed(id, steps[0].docs) { MadePassed(id, peer, steps[1..], d); } else { assert steps[0] in steps; }
  }

  lemma RetireNeedsGuard(db: Db, id: LeaseId, peer: Peer)
    ensures RetireTx(db, id, peer).Done? <==> GuardTx(db, id, peer).Done?
  {}

  lemma AllLicensed(db: Db, nonce: Nonce, peer: Peer, command: string, id: LeaseId, now: real, steps: seq<Pace>, last: Pace)
    requires ClaimTx(db, nonce, peer, command, id, now).Done? && Onward(ClaimTx(db, nonce, peer, command, id, now).docs, steps, last)
    ensures var held := ClaimTx(db, nonce, peer, command, id, now).docs;
            forall later | later == held || later == last.docs || (exists p | p in steps :: later == p.docs) ::
              && nonce in later.grants && later.grants[nonce].consumed
              && forall p, c, i, t :: ClaimTx(later, nonce, p, c, i, t).Raise?
    ensures forall d | d in Made(id, steps[..Passed(id, peer, steps)]) :: Licensed(d, peer, command)
  {
    hide ClaimTx, GuardTx, Licensed, LeasesGrow, Made, Passed;
    var held := ClaimTx(db, nonce, peer, command, id, now).docs;
    LeasesStay(held);
    forall later | later == held || later == last.docs || (exists p | p in steps :: later == p.docs)
      ensures nonce in later.grants && later.grants[nonce].consumed
      ensures forall p, c, i, t :: ClaimTx(later, nonce, p, c, i, t).Raise?
    {
      StillLicensed(db, nonce, peer, command, id, now, later);
    }
    forall d | d in Made(id, steps[..Passed(id, peer, steps)])
      ensures Licensed(d, peer, command)
    {
      MadePassed(id, peer, steps, d);
      StillLicensed(db, nonce, peer, command, id, now, d.db);
    }
  }

  lemma LeasesStay(db: Db)
    ensures LeasesGrow(db, db)
  {}

  /** The adapter that starts and stops a service on a launch lease. */
  class HostAdapter {
    const authority: LaunchGrantAuthority
    ghost var deeds: seq<Deed>

    constructor (authority: LaunchGrantAuthority)
      ensures this.authority == authority && deeds == []
    {
      this.authority, deeds := authority, [];
    }

    /** One spawn or signal, under the guard from before it to after it. */
    method Guarded(id: LeaseId, peer: Peer, busy: bool) returns (done: bool)
      requires !authority.store.open
      modifies this, authority.store
      ensures !authority.store.open && authority.store.committed == old(authority.store.committed)
      ensures done <==> !busy && GuardTx(authority.store.committed, id, peer).Done?
      ensures deeds == old(deeds) + (if done then [Deed(id, authority.store.committed)] else [])
    {
      var lease := authority.Enter(id, peer, busy);
      done := lease.Some?;
      if done {
        deeds := deeds + [Deed(id, authority.store.draft)];
        authority.Leave();
      }
    }

    /** What other processes have committed meanwhile. */
    method Others(docs: Db)
      requires !authority.store.open
      modifies authority.store
      ensures !authority.store.open && authority.store.committed == docs
    {
      authority.store.committed := docs;
    }

    /** One guarded step after another, other processes at work in between, until one is refused. */
    method Perform(id: LeaseId, peer: Peer, steps: seq<Pace>) returns (all: bool)
      requires !authority.store.open
      modifies this, authority.store
      ensures !authority.store.open
      ensures deeds == old(deeds) + Made(id, steps[..Passed(id, peer, steps)])
      ensures all <==> Passed(id, peer, steps) == |steps|
      ensures authority.store.committed == old(authority.store.committed) || exists p | p in steps :: authority.store.committed == p.docs
    {
      hide GuardTx;
      for k := 0 to |steps|
        invariant !authority.store.open
        invariant authority.store.committed == old(authority.store.committed) || exists p | p in steps :: authority.store.committed == p.docs
        invariant deeds == old(deeds) + Made(id, steps[..k]) && Passed(id, peer, steps) == k + Passed(id, peer, steps[k..])
      {
        Others(steps[k].docs);
        var done := Guarded(id, peer, steps[k].busy);
        assert steps[k..][0] == steps[k] && steps[k..][1..] == steps[k + 1..];
        assert steps[k] in steps;
        if !done { return false; }
        MadeGrows(id, steps[..k], steps[k]);
        assert steps[..k + 1] == steps[..k] + [steps[k]];
      }
      assert steps[..|steps|] == steps;
      all := true;
    }

    /** A whole action: claim, guarded steps, retire, with other processes at work in between.
        Nothing is done without a claim; each step is made under the claimed lease and the
        documents as they are then, and none once the lease is refused; and a finished action
        leaves neither grant nor lease to anybody. */
    method Execute(nonce: Nonce, peer: Peer, command: string, id: LeaseId, now: real, claimBusy: bool, steps: seq<Pace>, last: Pace)
      returns (ok: bool)
      requires !authority.store.open
      requires Onward(After(ClaimTx(authority.store.committed, nonce, peer, command, id, now), authority.store.committed), steps, last)
      modifies this, authority.store
      ensures !authority.store.open
      ensures claimBusy || ClaimTx(old(authority.store.committed), nonce, peer, command, id, now).Raise? ==>
        !ok && deeds == old(deeds) && authority.store.committed == old(authority.store.committed)
      ensures !(claimBusy || ClaimTx(old(authority.store.committed), nonce, peer, command, id, now).Raise?) ==>
        && deeds == old(deeds) + Made(id, steps[..Passed(id, peer, steps)])
        && (forall d | d in Made(id, steps[..Passed(id, peer, steps)]) :: Licensed(d, peer, command))
        && (forall p, c, i, t :: ClaimTx(authority.store.committed, nonce, p, c, i, t).Raise?)
        && (ok <==> Passed(id, peer, steps) == |steps| && !last.busy && GuardTx(last.docs, id, peer).Done?)
      ensures ok ==> forall other :: GuardTx(authority.store.committed, id, other).Raise?
    {
      hide ClaimTx, RetireTx, GuardTx, Licensed, LeasesGrow, Passed, Made;
      ok := false;
      ghost var db := authority.store.committed;
      var lease := authority.Claim(nonce, peer, command, id, now, claimBusy);
      if lease.None? { return; }
      AllLicensed(db, nonce, peer, command, id, now, steps, last);
      var all := Perform(id, peer, steps);
      if !all { return; }
      RetiredStaysSpent(last.docs, id, peer, nonce);
      Others(last.docs);
      var retired := authority.Retire(id, peer, last.busy);
      RetireNeedsGuard(last.docs, id, peer);
      ok := retired.Some?;
    }
  }
}
