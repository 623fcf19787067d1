/**
 The child over a whole call: what its end has to do with the schedule, why it may not have
 been started, and that an exit is noticed.
 */
module ForegroundChild {
  import opened Schema
  import opened ForegroundModel
  import opened ForegroundRuns
  import opened ForegroundSchedule

  // ---------------------------------------------------------------- a whole life

  lemma AbandonLives(s: State, reason: Reason)
    ensures Lived(s, Abandon(s, reason).s)
  {
    hide Look, Lived;
    LookLives(s);
    var s1 := Look(s).0;
    LivedStill(s1, s1);
    if s1.child.Exited? {
      LivedStill(s1, s1.(child := Reaped(s1.child.code)));
      LivedThrough(s, s1, s1.(child := Reaped(s1.child.code)));
    }
  }

  lemma WaitLives(s: State)
    ensures Lived(s, Wait(s).0)
  {
    hide Wake, Lived;
    if s.script == [] { LivedStill(s, s); return; }
    WakeLives(s);
    LivedStill(Wake(s), Wait(s).0);
    LivedThrough(s, Wake(s), Wait(s).0);
  }

  lemma CleanUpLives(s: State)
    ensures Lived(s, CleanUp(s).0)
  {
    hide Attempt, Wait, Abandon, Lived;
    LivedStill(s, s);
    AttemptLives(s, Cleanup);
    var (s1, f) := Attempt(s, Cleanup);
    WaitLives(s1);
    var s2 := Wait(s1).0;
    LivedThrough(s, s1, s2);
    AbandonLives(s1, CleanupUnconfirmed);
    LivedThrough(s, s1, Abandon(s1, CleanupUnconfirmed).s);
    AbandonLives(s2, CleanupUnconfirmed);
    LivedThrough(s, s2, Abandon(s2, CleanupUnconfirmed).s);
  }

  /** From the spawn on. */
  lemma AttendLives(l: Limits, s: State)
    requires Spawn(s).1 != Stuck
    ensures Lived(Spawn(s).0, Attend(l, s).0)
  {
    hide Spawn, Watch, Abandon, CleanUp, Lived;
    var s1 := Spawn(s).0;
    LivedStill(s1, s1);
    WatchLives(l, s1, None, None);
    var e := Body(l, s);
    if e.Forsakes? {
      AbandonLives(e.s, e.reason);
      LivedThrough(s1, e.s, Settle(e).s);
    }
    var d := Settle(e);
    if d.Throws? {
      CleanUpLives(d.s);
      LivedThrough(s1, d.s, CleanUp(d.s).0);
    }
  }

  /** Over every schedule: an exit code that is reported is one the child ended with, and the
      child is left alive exactly when nothing happened to it. */
  lemma ChildTold(l: Limits, now: real, script: seq<Moment>)
    ensures var (s1, o) := Attend(l, Start(now, script));
            && (s1.child.Reaped? ==> EndsWith(script, Some(s1.child.code)))
            && (s1.child.Alive? ==> |script| - |s1.script| >= 1 && Quiet(script[1..|script| - |s1.script|]))
  {
    hide Attend, Spawn, Lived;
    var s := Start(now, script);
    if Spawn(s).1 == Stuck {
      StuckAtOnce(s);
      NothingHappens(l, now);
    } else {
      SpawnUses(s);
      AttendLives(l, s);
      LifeReads(script, Spawn(s).0, Attend(l, s).0) by { SpawnChild(s); }
    }
  }

  lemma StuckAtOnce(s: State)
    requires Spawn(s).1 == Stuck
    ensures s.script == []
  {}

  lemma CodeTold(s: State, o: Outcome)
    requires Truthful(s, o)
    ensures o.Returned? && o.reaped ==> s.child.Reaped? && o.code == Some(s.child.code)
  {}

  lemma NothingHappens(l: Limits, now: real)
    ensures Attend(l, Start(now, [])) == (Start(now, []), Running)
  {}

  lemma SpawnChild(s: State)
    requires s.child == NotStarted
    ensures Spawn(s).0.child in {NotStarted, Alive}
  {}

  lemma LifeReads(script: seq<Moment>, s: State, s1: State)
    requires script != [] && s.script == script[1..] && s.child in {NotStarted, Alive} && Lived(s, s1)
    ensures s1.child.Reaped? ==> EndsWith(script, Some(s1.child.code))
    ensures s1.child.Alive? ==> |script| - |s1.script| >= 1 && Quiet(script[1..|script| - |s1.script|])
  {
    var used := s.script[..|s.script| - |s1.script|];
    assert used == script[1..|script| - |s1.script|];
    assert forall m | m in used :: m in script;
  }

  // ------------------------------------------------------------------- the spawn

  /** The guard of the spawn refuses, or the spawn itself raises, and what leaves the guard is
      an `Exception`. */
  ghost predicate Unspawnable(m: Moment) {
    m.guard == Refuses || (m.guard == Holds && m.trouble == Errs) || (m.guard == Slips && m.trouble != Smooth)
  }

  /** A start is refused exactly for one of these, and otherwise there is a child, or an
      exception that is none of `Exception`'s escapes. */
  lemma SpawnRefusedExactly(l: Limits, now: real, script: seq<Moment>)
    requires script != [] && Sane(l) && Timely(l, script)
    ensures var (s1, o) := Attend(l, Start(now, script));
            && (o == Returned(SpawnRefused, None, false, false) <==> Unspawnable(script[0]))
            && (s1.child == NotStarted && o != Escaped ==> Unspawnable(script[0]))
  {
    hide Watch, Abandon, CleanUp, Lived, Books, Explained, Paced, Suffix, Overtime, Timely;
    var s := Start(now, script);
    if Spawn(s).0.child == Alive {
      EveryRun(l, now, script);
      AttendLives(l, s);
      StillThere(Spawn(s).0, Attend(l, s).0);
      SpawnedIsSpawnable(s);
      hide Attend;
    } else {
      ChildlessSpawn(l, s);
    }
  }

  lemma SpawnedIsSpawnable(s: State)
    requires s.script != [] && Spawn(s).0.child == Alive && s.child == NotStarted
    ensures !Unspawnable(s.script[0])
  {}

  lemma ChildlessSpawn(l: Limits, s: State)
    requires s.script != [] && Spawn(s).0.child != Alive && s.child == NotStarted
    ensures var (s1, o) := Attend(l, s);
            s1.child == NotStarted && o == (if Unspawnable(s.script[0]) then Returned(SpawnRefused, None, false, false) else Escaped)
  {
    hide Watch, Abandon;
  }

  lemma StillThere(s: State, s': State)
    requires Lived(s, s')
    ensures s'.child == NotStarted <==> s.child == NotStarted
  {}

  // ------------------------------------------------------------- an exit is noticed

  /** Nothing arrives, every action works, and the child is left alone except that it ends at
      moment `k`. */
  ghost predicate EndsAt(script: seq<Moment>, k: int, code: int) {
    && (forall m | m in script :: m.arrivals == [] && m.trouble == Smooth)
    && (forall i | 0 <= i < |script| :: if i == k then script[i].turn == Ends(code) else script[i].turn == Stays)
  }

  lemma IdleWake(s: State, k: int, code: int)
    requires s.script != [] && EndsAt(s.script, k, code)
    ensures Wake(s) == s.(script := s.script[1..], child := Later(s.child, s.script[0].turn))
    ensures EndsAt(s.script[1..], k - 1, code) && s.script[0].trouble == Smooth
    ensures s.script[0].turn == (if k == 0 then Ends(code) else Stays)
  {
    assert s.script[0] in s.script;
    assert forall m | m in s.script[1..] :: m in s.script;
    assert s.script[0].arrivals[..0] == [];
  }

  /** A turn of the loop in which nothing happens. */
  lemma IdleCycle(l: Limits, s: State, k: int, code: int)
    requires s.script != [] && EndsAt(s.script, k, code) && s.pending == []
    requires s.child == Alive || s.child == Exited(code)
    ensures var e := Cycle(l, s, None, None);
            if s.child.Alive? && k != 0 then e == Goes(s.(script := s.script[1..]), None, None)
            else e.Returns? && e.outcome == Returned(Finished, Some(code), true, true)
  {
    IdleWake(s, k, code);
    hide Wake;
  }

  lemma {:induction false} ExitIsNoticed(l: Limits, s: State, k: int, code: int)
    requires EndsAt(s.script, k, code) && s.pending == [] && k <= |s.script| - 2
    requires if k >= 0 then s.child == Alive else s.child == Exited(code) && s.script != []
    ensures var e := Watch(l, s, None, None); e.Returns? && e.outcome == Returned(Finished, Some(code), true, true)
    decreases |s.script|
  {
    hide Cycle, Wake;
    IdleCycle(l, s, k, code);
    if k >= 1 {
      var e := Cycle(l, s, None, None);
      IdleWake(s, k, code);
      IdleWake(e.s, k - 1, code);
      ExitIsNoticed(l, Sleep(l, e.s).0, k - 2, code);
    }
  }

  /** A child that is started and ends by itself is reported with its code, and reaped, at the
      loop's next look. */
  lemma OwnEndIsReported(l: Limits, now: real, script: seq<Moment>, k: nat, code: int)
    requires EndsAt(script, k, code) && 1 <= k <= |script| - 2 && script[0].guard == Holds
    ensures Attend(l, Start(now, script)).1 == Returned(Finished, Some(code), true, true)
  {
    hide Watch, Wake;
    var s := Start(now, script);
    IdleWake(s, k, code);
    ExitIsNoticed(l, Wake(s).(child := Alive), k - 1, code);
  }
}
