/**
 The signal queue over a whole call: signals are dropped only when too many arrive.
 */
module ForegroundQueue {
  import opened Schema
  import opened ForegroundModel
  import opened ForegroundRuns

  /** The signals a stretch of the schedule brings. */
  ghost function Arrived(script: seq<Moment>): seq<Signal> {
    if script == [] then [] else script[0].arrivals + Arrived(script[1..])
  }

  lemma Regrouped(a: seq<Signal>, b: seq<Signal>, c: seq<Signal>)
    ensures a + (b + c) == (a + b) + c
  {}

  lemma ArrivedFirst(m: Moment, rest: seq<Moment>)
    ensures Arrived([m] + rest) == m.arrivals + Arrived(rest)
  {
    assert ([m] + rest)[0] == m && ([m] + rest)[1..] == rest;
  }

  lemma {:induction false} ArrivedSplits(a: seq<Moment>, b: seq<Moment>)
    ensures Arrived(a + b) == Arrived(a) + Arrived(b)
  {
    if a == [] {
      assert a + b == b;
    } else {
      var m, rest := a[0], a[1..];
      ArrivedSplits(rest, b);
      ArrivedFirst(m, rest + b);
      Regrouped(m.arrivals, Arrived(rest), Arrived(b));
      assert a + b == [m] + (rest + b);
    }
  }

  /** The queue has room for everything that is still to come. */
  ghost predicate Roomy(s: State) { Queued(s) && |s.accepted| + |Arrived(s.script)| <= CAPACITY }

  /** Everything that arrived in between was queued. */
  ghost predicate Heard(s: State, s': State) {
    && Suffix(s.script, s'.script) && Roomy(s')
    && s'.accepted == s.accepted + Arrived(s.script[..|s.script| - |s'.script|])
  }

  lemma HeardThrough(a: State, b: State, c: State)
    requires Heard(a, b) && Heard(b, c)
    ensures Heard(a, c)
  {
    var m, n := |a.script| - |b.script|, |a.script| - |c.script|;
    assert a.script[..n] == a.script[..m] + b.script[..|b.script| - |c.script|];
    ArrivedSplits(a.script[..m], b.script[..|b.script| - |c.script|]);
  }

  lemma HeardStill(s: State, s': State)
    requires Roomy(s) && Queued(s') && s'.script == s.script && s'.accepted == s.accepted
    ensures Heard(s, s')
  {
    assert s.script[..0] == [];
  }

  lemma WakeHears(s: State)
    requires s.script != [] && Roomy(s)
    ensures Heard(s, Wake(s))
  {
    WakeKeeps(s);
    var m := s.script[0];
    assert m.arrivals[..|m.arrivals|] == m.arrivals;
    assert s.script[..1] == [m] && Arrived([m]) == m.arrivals + Arrived([m][1..]) && [m][1..] == [];
    assert Arrived([m]) == m.arrivals;
  }

  /** A state that differs in neither the schedule nor the queue. */
  ghost predicate SameQueue(s: State, s': State) { s'.script == s.script && s'.accepted == s.accepted && s'.pending == s.pending }

  lemma HeardSame(s: State, s1: State, s2: State)
    requires Heard(s, s1) && SameQueue(s1, s2)
    ensures Heard(s, s2)
  {}

  lemma LookHears(s: State)
    requires Roomy(s)
    ensures Heard(s, Look(s).0)
  {
    hide Wake, Heard, Roomy;
    if s.script == [] { RoomyIsQueued(s); HeardStill(s, s); } else { WakeHears(s); }
  }

  lemma RoomyIsQueued(s: State)
    requires Roomy(s)
    ensures Queued(s)
  {}

  lemma HeardIsRoomy(s: State, s': State)
    requires Heard(s, s')
    ensures Roomy(s') && Queued(s')
  {}

  lemma StrikeHears(s: State, cause: Cause)
    requires Roomy(s)
    ensures Heard(s, Strike(s, cause).0)
  {
    hide Look, Heard, Roomy;
    LookHears(s);
    HeardSame(s, Look(s).0, Strike(s, cause).0);
  }

  lemma AttemptHears(s: State, cause: Cause)
    requires Roomy(s)
    ensures Heard(s, Attempt(s, cause).0)
  {
    hide Wake, Strike, Heard, Roomy;
    RoomyIsQueued(s);
    if s.script == [] { HeardStill(s, s); return; }
    var s1 := Wake(s);
    WakeHears(s);
    HeardIsRoomy(s, s1);
    if s.script[0].guard in {Refuses, BreaksIn} {
      HeardSame(s, s1, Attempt(s, cause).0);
    } else {
      var s2 := Strike(s1, cause).0;
      StrikeHears(s1, cause);
      HeardThrough(s, s1, s2);
      HeardSame(s, s2, Attempt(s, cause).0);
    }
  }

  lemma SleepHears(l: Limits, s: State)
    requires Roomy(s)
    ensures Heard(s, Sleep(l, s).0)
  {
    hide Wake, Heard, Roomy;
    RoomyIsQueued(s);
    if s.script == [] { HeardStill(s, s); return; }
    WakeHears(s);
    HeardSame(s, Wake(s), Sleep(l, s).0);
  }

  lemma PopHears(s: State)
    requires Roomy(s) && s.pending != []
    ensures Heard(s, s.(pending := s.pending[1..]))
  {
    PopServes(s);
    HeardStill(s, s.(pending := s.pending[1..]));
  }

  lemma RelayHears(s: State)
    requires Roomy(s) && s.pending != []
    ensures Heard(s, Attempt(s.(pending := s.pending[1..]), Relay(s.pending[0])).0)
  {
    hide Attempt, Heard, Roomy;
    var s' := s.(pending := s.pending[1..]);
    PopHears(s);
    HeardIsRoomy(s, s');
    AttemptHears(s', Relay(s.pending[0]));
    HeardThrough(s, s', Attempt(s', Relay(s.pending[0])).0);
  }

  lemma {:induction false} DrainHears(l: Limits, s: State, stop: Option<real>, kill: Option<real>)
    requires Roomy(s)
    ensures Heard(s, Drain(l, s, stop, kill).s)
    decreases |s.script|
  {
    hide Attempt, Heard, Roomy, Deadline;
    if s.pending == [] {
      RoomyIsQueued(s);
      HeardStill(s, s);
    } else {
      RelayHears(s);
      var (s1, f) := Attempt(s.(pending := s.pending[1..]), Relay(s.pending[0]));
      if f == Fine {
        HeardIsRoomy(s, s1);
        var stop1 := Deadline(l, s.pending[0], stop, s1.now);
        DrainHears(l, s1, stop1, kill);
        HeardThrough(s, s1, Drain(l, s1, stop1, kill).s);
      }
    }
  }

  lemma EscalateHears(l: Limits, s: State, stop: Option<real>, kill: Option<real>)
    requires Roomy(s)
    ensures Heard(s, Escalate(l, s, stop, kill).s)
  {
    hide Attempt, Heard, Roomy;
    RoomyIsQueued(s);
    HeardStill(s, s);
    AttemptHears(s, Escalation);
  }

  lemma CycleHears(l: Limits, s: State, stop: Option<real>, kill: Option<real>)
    requires Roomy(s)
    ensures Heard(s, Cycle(l, s, stop, kill).s)
  {
    hide Look, Drain, Escalate, Heard, Roomy;
    LookHears(s);
    var s1 := Look(s).0;
    HeardIsRoomy(s, s1);
    if s1.child.Exited? { HeardSame(s, s1, s1.(child := Reaped(s1.child.code))); }
    DrainHears(l, s1, stop, kill);
    var e := Drain(l, s1, stop, kill);
    HeardThrough(s, s1, e.s);
    if e.Goes? {
      HeardIsRoomy(s1, e.s);
      EscalateHears(l, e.s, e.shutdownAt, kill);
      HeardThrough(s, e.s, Escalate(l, e.s, e.shutdownAt, kill).s);
    }
  }

  lemma {:induction false} WatchHears(l: Limits, s: State, stop: Option<real>, kill: Option<real>)
    requires Roomy(s)
    ensures Heard(s, Watch(l, s, stop, kill).s)
    decreases |s.script|
  {
    hide Cycle, Sleep, Heard, Roomy;
    CycleHears(l, s, stop, kill);
    var e := Cycle(l, s, stop, kill);
    if e.Goes? {
      HeardIsRoomy(s, e.s);
      SleepHears(l, e.s);
      var (s1, f) := Sleep(l, e.s);
      HeardThrough(s, e.s, s1);
      if f == Fine {
        HeardIsRoomy(e.s, s1);
        WatchHears(l, s1, e.shutdownAt, e.killAt);
        HeardThrough(s, s1, Watch(l, s1, e.shutdownAt, e.killAt).s);
      }
    }
  }

  lemma AbandonHears(s: State, reason: Reason)
    requires Roomy(s)
    ensures Heard(s, Abandon(s, reason).s)
  {
    hide Look, Heard, Roomy;
    LookHears(s);
    var s1 := Look(s).0;
    if s1.child.Exited? { HeardSame(s, s1, s1.(child := Reaped(s1.child.code))); }
  }

  lemma WaitHears(s: State)
    requires Roomy(s)
    ensures Heard(s, Wait(s).0)
  {
    hide Wake, Heard, Roomy;
    RoomyIsQueued(s);
    if s.script == [] { HeardStill(s, s); return; }
    WakeHears(s);
    HeardSame(s, Wake(s), Wait(s).0);
  }

  lemma CleanUpHears(s: State)
    requires Roomy(s)
    ensures Heard(s, CleanUp(s).0)
  {
    hide Attempt, Wait, Abandon, Heard, Roomy;
    RoomyIsQueued(s);
    HeardStill(s, s);
    AttemptHears(s, Cleanup);
    var s1 := Attempt(s, Cleanup).0;
    HeardIsRoomy(s, s1);
    WaitHears(s1);
    var s2 := Wait(s1).0;
    HeardIsRoomy(s1, s2);
    HeardThrough(s, s1, s2);
    AbandonHears(s1, CleanupUnconfirmed);
    HeardThrough(s, s1, Abandon(s1, CleanupUnconfirmed).s);
    AbandonHears(s2, CleanupUnconfirmed);
    HeardThrough(s, s2, Abandon(s2, CleanupUnconfirmed).s);
  }

  lemma SpawnHears(s: State)
    requires Roomy(s)
    ensures Heard(s, Spawn(s).0)
  {
    hide Wake, Heard, Roomy;
    RoomyIsQueued(s);
    if s.script == [] { HeardStill(s, s); return; }
    WakeHears(s);
    HeardSame(s, Wake(s), Spawn(s).0);
  }

  lemma AttendHears(l: Limits, s: State)
    requires Roomy(s)
    ensures Heard(s, Attend(l, s).0)
  {
    hide Spawn, Watch, Abandon, CleanUp, Heard, Roomy;
    SpawnHears(s);
    var s1 := Spawn(s).0;
    HeardIsRoomy(s, s1);
    WatchHears(l, s1, None, None);
    HeardThrough(s, s1, Watch(l, s1, None, None).s);
    var e := Body(l, s);
    HeardIsRoomy(s, e.s);
    if e.Forsakes? {
      AbandonHears(e.s, e.reason);
      HeardThrough(s, e.s, Settle(e).s);
    }
    var d := Settle(e);
    HeardIsRoomy(s, d.s);
    if d.Throws? {
      CleanUpHears(d.s);
      HeardThrough(s, d.s, CleanUp(d.s).0);
    }
  }

  /** Over every schedule that brings no more signals than the queue holds, none is dropped:
      what was queued is what arrived, and what was handled comes first in it, in order. */
  lemma NothingIsDropped(l: Limits, now: real, script: seq<Moment>)
    requires Sane(l) && Timely(l, script) && |Arrived(script)| <= CAPACITY
    ensures var s1 := Attend(l, Start(now, script)).0;
            && |s1.script| <= |script|
            && s1.accepted == Arrived(script[..|script| - |s1.script|]) && Handled(s1.log) <= s1.accepted
  {
    hide Attend, Handled, Arrived, Truthful, Paced, Explained, Overtime, Timely, Books, Roomy, Suffix;
    var s := Start(now, script);
    assert Roomy(s) by { StartIsRoomy(s); }
    AttendHears(l, s);
    EveryRun(l, now, script);
    HandledComesFirst(l, Attend(l, s).0, Overtime(l, s));
    HeardReads(s, Attend(l, s).0);
  }

  lemma StartIsRoomy(s: State)
    requires s.pending == [] && s.accepted == [] && |Arrived(s.script)| <= CAPACITY
    ensures Roomy(s)
  {}

  lemma HeardReads(s: State, s': State)
    requires Heard(s, s') && s.accepted == []
    ensures |s'.script| <= |s.script| && s'.accepted == Arrived(s.script[..|s.script| - |s'.script|])
  {}

  lemma HandledComesFirst(l: Limits, s: State, extra: real)
    requires Books(l, s, extra)
    ensures Handled(s.log) <= s.accepted
  {
    hide First, Handled, Escalations;
  }
}
