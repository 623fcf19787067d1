/**
 When a signal follows a guard's failure, said of the schedule; and what a schedule without
 interruptions gives.
 */
module ForegroundSilence {
  import opened Schema
  import opened ForegroundModel
  import opened ForegroundRuns
  import opened ForegroundSchedule

  // --------------------------------------------------------- said of the schedule

  /** At moment `j` the handler's guard opens, at the next one its signal goes out, and until
      then nothing happened to the child. */
  ghost predicate Opens(script: seq<Moment>, j: nat) {
    && j + 2 <= |script| && script[j].guard !in {Refuses, BreaksIn}
    && script[j + 1].trouble == Smooth && script[j + 1].kill == Smooth && Quiet(script[1..j + 2])
  }

  /** At moment `j` something breaks into the look of `abandon`, and the handler takes over. */
  ghost predicate Disturbed(script: seq<Moment>, j: nat) {
    j < |script| && script[j].trouble != Smooth && Opens(script, j + 1)
  }

  /** The guard asked for a signal at moment `k` fails. An `Exception` leads to `abandon`,
      anything else straight to the handler; on the way out it comes after the guarded look. */
  ghost predicate Reopens(script: seq<Moment>, k: nat)
    requires k < |script|
  {
    match script[k].guard
    case Holds => false
    case Refuses => Disturbed(script, k + 1)
    case Slips => Disturbed(script, k + 2)
    case BreaksIn => Opens(script, k + 1)
    case BreaksOut => Opens(script, k + 2)
  }

  /** The guard of the spawn fails on its way out, the child being there. */
  ghost predicate ReopensAtSpawn(script: seq<Moment>) {
    && script != [] && script[0].trouble == Smooth
    && match script[0].guard
       case Slips => Disturbed(script, 1)
       case BreaksOut => Opens(script, 1)
       case _ => false
  }

  /** After a failed guard the handler's own guard opens: at the spawn, or at a moment where
      the `try` block asks for a signal. */
  ghost predicate SecondChance(l: Limits, now: real, script: seq<Moment>) {
    || ReopensAtSpawn(script)
    || exists k :: 1 <= k < |script| && Asks(l, now, script, k) && Reopens(script, k)
  }

  // ------------------------------------------------------------ said of the states

  /** The guard opens at the next moment and the signal goes out at the one after. */
  ghost predicate Lands(child: Child, script: seq<Moment>) {
    && |script| >= 2 && script[0].guard !in {Refuses, BreaksIn}
    && script[1].trouble == Smooth && script[1].kill == Smooth
    && Later(Later(child, script[0].turn), script[1].turn) == Alive
  }

  /** The `try` block ended on a failed guard, and what follows lets a signal out. */
  ghost predicate Reopened(e: End) {
    && Refused(e)
    && if e.Throws? then Lands(e.s.child, e.s.script)
       else
         && e.s.script != [] && e.s.script[0].trouble != Smooth
         && Lands(Later(e.s.child, e.s.script[0].turn), e.s.script[1..])
  }

  ghost predicate Sent(before: seq<Deed>, log: seq<Deed>) {
    |log| > |before| && log[|before|].Send? && log[|before|].sent
  }

  lemma StrikeSends(s: State, cause: Cause)
    ensures var s1 := Strike(s, cause).0;
            && |s1.log| >= |s.log|
            && (Sent(s.log, s1.log) <==>
                  && s.script != [] && s.script[0].trouble == Smooth && s.script[0].kill == Smooth
                  && Later(s.child, s.script[0].turn) == Alive)
  {}

  lemma AttemptSends(s: State, cause: Cause)
    ensures Sent(s.log, Attempt(s, cause).0.log) <==> Lands(s.child, s.script)
  {
    if s.script != [] && s.script[0].guard !in {Refuses, BreaksIn} { StrikeSends(Wake(s), cause); }
  }

  lemma CleanUpTells(s: State)
    requires s.child != NotStarted
    ensures CleanUp(s).0.log == Attempt(s, Cleanup).0.log
  {
    hide Attempt;
  }

  lemma FreshIsSilent(log: seq<Deed>)
    requires Fresh(log)
    ensures !SignalAfterRefusal(log)
  {}

  /** After a refusal, exactly a sent signal makes the difference. */
  lemma SilencedTells(before: seq<Deed>, log: seq<Deed>, cause: Cause, f: Flow, at: real)
    requires Fresh(before) && Silenced(before) && Tells(before, log, cause, f, at)
    ensures SignalAfterRefusal(log) <==> Sent(before, log)
  {
    var n := |before|;
    assert |log| >= n && log[..n] == before;
    assert forall i | 0 <= i < n :: log[i] == before[i];
    if Sent(before, log) {
      assert log[n - 1].Denied? && log[n].Send? && log[n].sent;
    }
    if SignalAfterRefusal(log) {
      var i, j :| 0 <= i < j < |log| && log[i].Denied? && log[j].Send? && log[j].sent;
      assert j >= n;
    }
  }

  lemma CleanUpSilence(s: State)
    requires Queued(s) && Fresh(s.log)
    ensures SignalAfterRefusal(CleanUp(s).0.log) <==> Silenced(s.log) && Lands(s.child, s.script)
  {
    hide Attempt, Tells;
    if s.child == NotStarted {
      FreshIsSilent(s.log);
    } else {
      CleanUpTells(s);
      AttemptKeeps(s, Cleanup);
      var (s1, f) := Attempt(s, Cleanup);
      AttemptSends(s, Cleanup);
      if Silenced(s.log) {
        SilencedTells(s.log, s1.log, Cleanup, f, s.now);
      } else {
        TellsReads(s.log, s1.log, Cleanup, f, s.now);
        FreshIsSilent(s1.log);
      }
    }
  }

  lemma LookThrows(s: State, reason: Reason)
    requires Queued(s)
    ensures var e := Abandon(s, reason);
            && e.s.log == s.log
            && (e.Throws? <==> s.script != [] && s.script[0].trouble != Smooth)
            && (e.Throws? ==> Queued(e.s) && e.s.script == s.script[1..] && e.s.child == Later(s.child, s.script[0].turn))
  {
    if s.script != [] { WakeKeeps(s); }
  }

  lemma SignalAfterRefusalEnds(l: Limits, now: real, script: seq<Moment>)
    requires Sane(l) && Timely(l, script)
    ensures SignalAfterRefusal(Attend(l, Start(now, script)).0.log) <==> Reopened(Body(l, Start(now, script)))
  {
    hide Books, Body, Abandon, CleanUp, Lands, SignalAfterRefusal, Timely, Explained, Truthful, Suffix, Silenced;
    var s := Start(now, script);
    BodyKeeps(l, s);
    var e := Body(l, s);
    EndQueue(l, e);
    match e
    case Returns(s1, _) => FreshIsSilent(s1.log);
    case Halts(s1, _) => FreshIsSilent(s1.log);
    case Throws(s1) => CleanUpSilence(s1);
    case Forsakes(s1, reason) =>
      LookThrows(s1, reason);
      var d := Abandon(s1, reason);
      if d.Throws? { CleanUpSilence(d.s); } else { FreshIsSilent(s1.log); }
  }

  // -------------------------------------------------- from states to the schedule

  lemma LandsThere(script: seq<Moment>, j: nat, s: State)
    requires Reached(script, j, s)
    ensures Lands(s.child, s.script) <==> Opens(script, j)
  {
    if j + 2 <= |script| {
      assert script[1..j + 2] == script[1..j] + [script[j], script[j + 1]];
      assert s.script[0] == script[j] && s.script[1] == script[j + 1];
    }
  }

  lemma ReopenedThere(script: seq<Moment>, j: nat, e: End)
    requires Reached(script, j, e.s) && Refused(e)
    ensures Reopened(e) <==> if e.Throws? then Opens(script, j) else Disturbed(script, j)
  {
    hide Lands, Opens, Silenced, Lived;
    if e.Throws? {
      LandsThere(script, j, e.s);
    } else if j < |script| {
      var s1 := Wake(e.s);
      WakeLives(e.s);
      ReachedThrough(script, j, e.s, s1);
      LandsThere(script, j + 1, s1);
      assert e.s.script[0] == script[j];
    }
  }

  /** A guard that fails where the `try` block asks it: what follows, at which moment. */
  lemma AskedReopens(l: Limits, now: real, script: seq<Moment>, k: nat)
    requires 1 <= k < |script| && Asks(l, now, script, k) && script[k].guard != Holds
    ensures Reopened(Body(l, Start(now, script))) <==> Reopens(script, k)
  {
    hide Body, Attempt, Asks, Lived, Reached, Reopened, Opens, Lands;
    var s, cause := AskedThere(l, now, script, k);
    var (s1, f) := Attempt(s, cause);
    var e := Unsent(s1, f, Ask(s, cause));
    assert s.script == script[k..] by { ReachedScript(script, k, s); }
    FailedTells(s, cause);
    AttemptLives(s, cause);
    ReachedThrough(script, k, s, s1);
    if f == Stuck {
      NotReopened(e);
      assert !Reopens(script, k) by { TooShort(script, k + 2); }
    } else {
      ReopenedThere(script, |script| - |s1.script|, e);
    }
  }

  lemma ReachedScript(script: seq<Moment>, j: nat, s: State)
    requires Reached(script, j, s)
    ensures s.script == script[j..]
  {}

  lemma NotReopened(e: End)
    requires e.Halts? || e.Returns?
    ensures !Reopened(e)
  {}

  lemma TooShort(script: seq<Moment>, j: nat)
    requires j > |script| - 2
    ensures !Opens(script, j) && (j >= |script| ==> !Disturbed(script, j))
  {}

  /** A guard that fails at the spawn. */
  lemma SpawnReopens(l: Limits, now: real, script: seq<Moment>)
    requires Spawn(Start(now, script)).1 != Fine
    ensures Reopened(Body(l, Start(now, script))) <==> ReopensAtSpawn(script)
  {
    hide Opens, Lands, Reopened, Disturbed;
    var s := Start(now, script);
    var (s1, f) := Spawn(s);
    var e := Body(l, s);
    if s1.child == Alive {
      SpawnReaches(now, script);
      SpawnTells(s);
      ReopenedThere(script, 1, e);
    } else {
      ChildlessStays(e);
    }
  }

  lemma SpawnTells(s: State)
    requires Spawn(s).1 != Fine && Spawn(s).0.child == Alive && s.child == NotStarted
    ensures Silenced(Spawn(s).0.log) && s.script[0].trouble == Smooth
    ensures if Spawn(s).1 == Failed then s.script[0].guard == Slips else Spawn(s).1 == Broken && s.script[0].guard == BreaksOut
  {}

  lemma ChildlessStays(e: End)
    requires e.s.child == NotStarted
    ensures !Reopened(e)
  {}

  /** Over every schedule: a signal follows a failed guard if and only if the schedule gives
      the `try` block a second chance after the failure. */
  lemma SignalAfterRefusalExactly(l: Limits, now: real, script: seq<Moment>)
    requires Sane(l) && Timely(l, script)
    ensures SignalAfterRefusal(Attend(l, Start(now, script)).0.log) <==> SecondChance(l, now, script)
  {
    hide Attend, Body, Spawn, SignalAfterRefusal, Asks, Reopens, ReopensAtSpawn, Timely;
    var s := Start(now, script);
    var e := Body(l, s);
    SignalAfterRefusalEnds(l, now, script);
    if Spawn(s).1 != Fine {
      SpawnReopens(l, now, script);
      SpawnNeverAsks(l, now, script);
    } else {
      FineSpawn(script, now);
      if Reopened(e) {
        var k := BodyAsked(l, now, script);
        AsksLater(l, now, script, k);
        AskedReopens(l, now, script, k);
      }
      forall k | 1 <= k < |script| && Asks(l, now, script, k) && Reopens(script, k)
        ensures Reopened(e)
      {
        ReopensFails(script, k);
        AskedReopens(l, now, script, k);
      }
    }
  }

  lemma ReopensFails(script: seq<Moment>, k: nat)
    requires k < |script| && Reopens(script, k)
    ensures script[k].guard != Holds
  {}

  lemma FineSpawn(script: seq<Moment>, now: real)
    requires Spawn(Start(now, script)).1 == Fine
    ensures !ReopensAtSpawn(script)
  {}

  /** Nothing is asked for a signal before there is a child. */
  lemma AsksLater(l: Limits, now: real, script: seq<Moment>, k: nat)
    requires k <= |script| && Asks(l, now, script, k)
    ensures k >= 1 && Spawn(Start(now, script)).1 == Fine
  {
    hide Watch;
    if k >= 1 { assert script[..k][0] == script[0]; }
  }

  lemma SpawnNeverAsks(l: Limits, now: real, script: seq<Moment>)
    requires Spawn(Start(now, script)).1 != Fine
    ensures forall k :: 1 <= k < |script| ==> !Asks(l, now, script, k)
  {
    hide Spawn, Asks;
    forall k | 1 <= k < |script|
      ensures !Asks(l, now, script, k)
    {
      if Asks(l, now, script, k) { AsksLater(l, now, script, k); }
    }
  }

  lemma EndQueue(l: Limits, e: End)
    requires Left(l, e) && !e.Goes?
    ensures Queued(e.s) && Fresh(e.s.log)
  {}

  // ------------------------------------------------------ undisturbed schedules

  /** Every action works or raises an `Exception`, and every look, sleep and wait works. */
  ghost predicate Calm(script: seq<Moment>) {
    forall m | m in script :: m.trouble == Smooth && m.kill != Breaks && m.guard !in {BreaksIn, BreaksOut}
  }

  lemma CalmSuffix(whole: seq<Moment>, rest: seq<Moment>)
    requires Calm(whole) && Suffix(whole, rest)
    ensures Calm(rest)
  {}

  lemma CalmAttempt(s: State, cause: Cause)
    requires Calm(s.script)
    ensures Attempt(s, cause).1 != Broken
    ensures !Look(s).1.Broken? && !Look(s).1.Failed?
  {
    if s.script != [] {
      assert s.script[0] in s.script;
      var s1 := Wake(s);
      if s1.script != [] { assert s1.script[0] == s.script[1] && s.script[1] in s.script; }
    }
  }

  /** A calm stretch throws only when somebody else took the child. */
  ghost predicate Orphaned(e: End) { e.Throws? ==> !e.s.child.Alive? && !e.s.child.Exited? && e.s.child != NotStarted }

  lemma {:induction false} CalmDrain(l: Limits, s: State, stop: Option<real>, kill: Option<real>)
    requires Calm(s.script) && Queued(s)
    ensures !Drain(l, s, stop, kill).Throws?
    decreases |s.script|
  {
    hide Attempt, Look, Calm;
    if s.pending != [] {
      var s' := s.(pending := s.pending[1..]);
      PopServes(s);
      CalmAttempt(s', Relay(s.pending[0]));
      AttemptKeeps(s', Relay(s.pending[0]));
      var (s1, f) := Attempt(s', Relay(s.pending[0]));
      if f == Fine {
        CalmSuffix(s.script, s1.script);
        CalmDrain(l, s1, Deadline(l, s.pending[0], stop, s1.now), kill);
      }
    }
  }

  lemma CalmEscalate(l: Limits, s: State, stop: Option<real>, kill: Option<real>)
    requires Calm(s.script)
    ensures !Escalate(l, s, stop, kill).Throws?
  {
    hide Attempt, Look, Calm;
    CalmAttempt(s, Escalation);
  }

  /** What the first look of a turn leaves: a calm rest, a child, and the ledger. */
  lemma CalmLook(l: Limits, s: State, stop: Option<real>, kill: Option<real>)
    requires Calm(s.script) && Ledger(l, s, stop, kill)
    ensures var (s1, f) := Look(s);
            && Calm(s1.script) && Queued(s1) && s1.child != NotStarted && f in {Fine, Missing, Stuck}
            && (f == Missing ==> !s1.child.Alive? && !s1.child.Exited?)
  {
    hide Attempt, Look, Calm, Ledger, Suffix;
    LookLedger(l, s, stop, kill);
    LedgerParts(l, s, stop, kill);
    LedgerParts(l, Look(s).0, stop, kill);
    CalmAttempt(s, Escalation);
    LookKeeps(s);
    CalmSuffix(s.script, Look(s).0.script);
  }

  lemma CalmCycle(l: Limits, s: State, stop: Option<real>, kill: Option<real>)
    requires Calm(s.script) && Ledger(l, s, stop, kill)
    ensures Orphaned(Cycle(l, s, stop, kill))
  {
    hide Look, Drain, Escalate, Calm, Ledger, Left, Suffix, Queued;
    CalmLook(l, s, stop, kill);
    LookLedger(l, s, stop, kill);
    var (s1, f) := Look(s);
    if f == Fine && !s1.child.Exited? {
      CalmDrain(l, s1, stop, kill);
      DrainKeeps(l, s1, stop, kill);
      var e := Drain(l, s1, stop, kill);
      if e.Goes? {
        CalmSuffix(s1.script, e.s.script);
        CalmEscalate(l, e.s, e.shutdownAt, kill);
      }
    }
  }

  lemma {:induction false} CalmWatch(l: Limits, s: State, stop: Option<real>, kill: Option<real>)
    requires Calm(s.script) && Timely(l, s.script) && Ledger(l, s, stop, kill)
    ensures Orphaned(Watch(l, s, stop, kill))
    decreases |s.script|
  {
    hide Cycle, Ledger, Left, Timely, Suffix, Wake, Paced, Calm;
    CalmCycle(l, s, stop, kill);
    CycleKeeps(l, s, stop, kill);
    var e := Cycle(l, s, stop, kill);
    if e.Goes? {
      TimelySuffix(l, s.script, e.s.script);
      CalmSuffix(s.script, e.s.script);
      CalmNext(e.s);
      SleepKeeps(l, e.s, e.shutdownAt, e.killAt);
      var (s1, f) := Sleep(l, e.s);
      if f == Fine {
        TimelySuffix(l, e.s.script, s1.script);
        CalmSuffix(e.s.script, s1.script);
        CalmWatch(l, s1, e.shutdownAt, e.killAt);
      }
    }
  }

  lemma CalmSpawn(s: State)
    requires Calm(s.script)
    ensures Spawn(s).1 != Broken
  {
    if s.script != [] { assert s.script[0] in s.script; }
  }

  lemma CalmBody(l: Limits, s: State)
    requires Calm(s.script) && Sane(l) && Timely(l, s.script)
    requires Queued(s) && Served(s) == [] && s.log == [] && s.child == NotStarted
    ensures Orphaned(Body(l, s))
  {
    hide Spawn, Watch, Ledger, First, Handled, Escalations, Calm, Suffix, Timely;
    SpawnKeeps(s);
    CalmSpawn(s);
    var (s1, f) := Spawn(s);
    if f == Fine {
      EmptyAccounts(l, s1);
      TimelySuffix(l, s.script, s1.script);
      CalmSuffix(s.script, s1.script);
      CalmWatch(l, s1, None, None);
    }
  }

  /** A lost child is not signalled and not waited for. */
  lemma LostIsLeft(s: State)
    requires Calm(s.script) && !s.child.Alive? && !s.child.Exited? && s.child != NotStarted && Queued(s)
    ensures Waited(s) == 0.0 && CleanUp(s).1 != Escaped
  {
    hide Look;
    CalmAttempt(s, Cleanup);
    AttemptKeeps(s, Cleanup);
    LostAttempt(s, Cleanup);
    var s1 := Attempt(s, Cleanup).0;
    CalmSuffix(s.script, s1.script);
    CalmAttempt(s1, Cleanup);
    hide Attempt;
  }

  lemma LostAttempt(s: State, cause: Cause)
    requires !s.child.Alive? && !s.child.Exited? && s.child != NotStarted
    ensures Attempt(s, cause).1 != Fine
  {}

  lemma CalmSettles(l: Limits, s: State)
    requires Calm(s.script) && Sane(l) && Timely(l, s.script)
    requires Queued(s) && Served(s) == [] && s.log == [] && s.child == NotStarted
    ensures !Reopened(Body(l, s))
    ensures var d := Settle(Body(l, s)); d.Throws? ==> Orphaned(d) && Calm(d.s.script) && Queued(d.s)
  {
    hide Body, Abandon, Timely, Suffix, Calm, Paced, Left, Silenced;
    BodyKeeps(l, s);
    CalmBody(l, s);
    var e := Body(l, s);
    EndQueue(l, e);
    CalmSuffix(s.script, e.s.script);
    CalmNext(e.s);
    if e.Forsakes? { LookThrows(e.s, e.reason); }
  }

  /** Over every calm schedule no signal follows a refusal, no exception escapes, and the
      whole call keeps the loop's bound. */
  lemma CalmRuns(l: Limits, now: real, script: seq<Moment>)
    requires Sane(l) && Timely(l, script) && Calm(script)
    ensures var (s1, o) := Attend(l, Start(now, script));
            !SignalAfterRefusal(s1.log) && o != Escaped && Books(l, s1, 0.0) && Overtime(l, Start(now, script)) == 0.0
  {
    hide Books, Body, Settle, CleanUp, Waited, SignalAfterRefusal, Timely, Explained, Truthful, Suffix, Calm,
      Reopened, Paced;
    var s := Start(now, script);
    EveryRun(l, now, script);
    SignalAfterRefusalEnds(l, now, script);
    SettleKeeps(l, s);
    CalmSettles(l, s);
    var d := Settle(Body(l, s));
    if d.Throws? { LostIsLeft(d.s); }
    if d.Returns? { assert d.outcome.Returned?; }
  }

  lemma CalmNext(s: State)
    requires Calm(s.script)
    ensures s.script != [] ==> s.script[0].trouble == Smooth
  {
    if s.script != [] { assert s.script[0] in s.script; }
  }

  // ---------------------------------------------------------- a refused signal

  const CALM := Moment([], Stays, Holds, Smooth, Smooth, 0.0, 0.0)

  /** A TERM arrives during the spawn, and the loop looks. */
  const SIGNALLED: seq<Moment> := [CALM.(arrivals := [Term]), CALM]

  /** Then the guard refuses the TERM, the look that follows raises an `OSError`, and the
      handler's guard opens. */
  const REFUSED_SCHEDULE: seq<Moment> := SIGNALLED + [CALM.(guard := Refuses), CALM.(trouble := Errs), CALM, CALM, CALM]

  /** Or the guard raises something that is not an `Exception`, and the handler's opens. */
  const BROKEN_SCHEDULE: seq<Moment> := SIGNALLED + [CALM.(guard := BreaksIn), CALM, CALM, CALM]

  lemma SignalledAsks(l: Limits, script: seq<Moment>)
    requires |script| >= 2 && script[..2] == SIGNALLED
    ensures Asks(l, 0.0, script, 2)
  {
    var begun := Start(0.0, SIGNALLED);
    var s := State(0.0, Alive, [Term], [CALM], [], [Term], 0);
    assert Wake(begun).pending == [Term] && Wake(begun).accepted == [Term];
    assert Spawn(begun) == (s, Fine);
    var s1 := State(0.0, Alive, [Term], [], [], [Term], 0);
    assert Wake(s) == s1 by { assert [CALM][1..] == []; assert CALM.arrivals[..0] == [] && [Term] + [] == [Term]; }
    assert Look(s) == (s1, Fine);
    assert Drain(l, s1, None, None) == Halts(s1.(pending := [Term][1..]), Some(Relay(Term)));
  }

  lemma RefusedRun(l: Limits)
    requires Sane(l)
    ensures Timely(l, REFUSED_SCHEDULE) && SignalAfterRefusal(Attend(l, Start(0.0, REFUSED_SCHEDULE)).0.log)
    ensures Timely(l, BROKEN_SCHEDULE) && SignalAfterRefusal(Attend(l, Start(0.0, BROKEN_SCHEDULE)).0.log)
  {
    hide Attend, Asks;
    SignalledAsks(l, REFUSED_SCHEDULE);
    assert Reopens(REFUSED_SCHEDULE, 2);
    SignalAfterRefusalExactly(l, 0.0, REFUSED_SCHEDULE);
    SignalledAsks(l, BROKEN_SCHEDULE);
    assert Reopens(BROKEN_SCHEDULE, 2);
    SignalAfterRefusalExactly(l, 0.0, BROKEN_SCHEDULE);
  }
}
