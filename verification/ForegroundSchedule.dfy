/**
 What the `try` block does depends only on the moments it has used. A run of the schedule
 up to some moment shows what that moment is for; where it shows the loop about to ask the
 guard, the whole run asks the guard there.
 */
module ForegroundSchedule {
  import opened Schema
  import opened ForegroundModel
  import opened ForegroundRuns

  /** The same state with more of the schedule to come. */
  ghost function More(s: State, rest: seq<Moment>): State { s.(script := s.script + rest) }

  /** With less of it. */
  ghost function Cut(s: State, k: nat): State
    requires k <= |s.script|
  {
    s.(script := s.script[..k])
  }

  lemma CutMore(s: State, k: nat)
    requires k <= |s.script|
    ensures More(Cut(s, k), s.script[k..]) == s
  {}

  lemma MoreCut(s: State, s0: State, k: nat, rest: seq<Moment>)
    requires k <= |s.script| && |rest| == |s.script| - k && More(s0, rest) == s
    ensures s0 == Cut(s, k) && rest == s.script[k..]
  {}

  /** `a`, met on the shorter schedule, is `b`, met on the longer one. */
  ghost predicate Alike(a: (State, Flow), b: (State, Flow), rest: seq<Moment>) {
    b == (More(a.0, rest), a.1)
  }

  /** The shorter schedule was long enough. */
  ghost predicate Enough(a: (State, Flow), b: (State, Flow), rest: seq<Moment>) {
    a.1 != Stuck || (|b.0.script| >= |rest| && b.1 != Stuck)
  }

  lemma WakeMore(s: State, rest: seq<Moment>)
    requires s.script != []
    ensures Wake(More(s, rest)) == More(Wake(s), rest) && More(s, rest).script[0] == s.script[0]
  {
    assert (s.script + rest)[1..] == s.script[1..] + rest;
  }

  lemma LookMore(s: State, rest: seq<Moment>)
    requires Enough(Look(s), Look(More(s, rest)), rest)
    ensures Alike(Look(s), Look(More(s, rest)), rest)
  {
    hide Wake;
    if s.script != [] { WakeMore(s, rest); }
  }

  lemma StrikeMore(s: State, cause: Cause, rest: seq<Moment>)
    requires s.script != []
    ensures Alike(Strike(s, cause), Strike(More(s, rest), cause), rest)
  {
    hide Wake;
    WakeMore(s, rest);
  }

  lemma AttemptMore(s: State, cause: Cause, rest: seq<Moment>)
    requires Enough(Attempt(s, cause), Attempt(More(s, rest), cause), rest)
    ensures Alike(Attempt(s, cause), Attempt(More(s, rest), cause), rest)
  {
    hide Wake, Strike;
    if s.script != [] {
      WakeMore(s, rest);
      var s1 := Wake(s);
      if s.script[0].guard !in {Refuses, BreaksIn} && s1.script != [] { StrikeMore(s1, cause, rest); }
    }
  }

  lemma AttemptLate(s: State, cause: Cause)
    requires s.script == []
    ensures Attempt(s, cause) == (s, Stuck)
  {}

  lemma SleepMore(l: Limits, s: State, rest: seq<Moment>)
    requires Enough(Sleep(l, s), Sleep(l, More(s, rest)), rest)
    ensures Alike(Sleep(l, s), Sleep(l, More(s, rest)), rest)
  {
    hide Wake;
    if s.script != [] { WakeMore(s, rest); }
  }

  // ------------------------------------------------------- from shorter to longer

  /** What went on goes on; where the shorter run was about to ask the guard, the longer one
      asks it; and a longer run that went on within the shorter schedule did so there too. */
  ghost predicate Resumes(a: End, b: End, rest: seq<Moment>) {
    && (a.Goes? ==> b == Goes(More(a.s, rest), a.shutdownAt, a.killAt))
    && (a.Halts? && a.asks.Some? ==>
          && a.s.script == []
          && var (s1, f) := Attempt(More(a.s, rest), a.asks.value);
             f != Fine ==> b == Unsent(s1, f, Ask(More(a.s, rest), a.asks.value)))
    && (b.Goes? && |b.s.script| >= |rest| ==> a.Goes?)
  }

  lemma {:induction false} DrainMore(l: Limits, s: State, stop: Option<real>, kill: Option<real>, rest: seq<Moment>)
    ensures Resumes(Drain(l, s, stop, kill), Drain(l, More(s, rest), stop, kill), rest)
    decreases |s.script|
  {
    hide Attempt;
    if s.pending != [] {
      var s', cause := s.(pending := s.pending[1..]), Relay(s.pending[0]);
      var (s1, f) := Attempt(s', cause);
      var b := Attempt(More(s', rest), cause);
      assert More(s', rest) == More(s, rest).(pending := s.pending[1..]);
      if s.script == [] { AttemptLate(s', cause); }
      if Enough((s1, f), b, rest) { AttemptMore(s', cause, rest); }
      if f == Fine { DrainMore(l, s1, Deadline(l, s.pending[0], stop, s1.now), kill, rest); }
    }
  }

  lemma EscalateMore(l: Limits, s: State, stop: Option<real>, kill: Option<real>, rest: seq<Moment>)
    ensures Resumes(Escalate(l, s, stop, kill), Escalate(l, More(s, rest), stop, kill), rest)
  {
    hide Attempt;
    var a, b := Attempt(s, Escalation), Attempt(More(s, rest), Escalation);
    if s.script == [] { AttemptLate(s, Escalation); }
    if Enough(a, b, rest) { AttemptMore(s, Escalation, rest); }
  }

  lemma CycleMore(l: Limits, s: State, stop: Option<real>, kill: Option<real>, rest: seq<Moment>)
    ensures Resumes(Cycle(l, s, stop, kill), Cycle(l, More(s, rest), stop, kill), rest)
  {
    hide Look, Drain, Escalate, Attempt;
    if Enough(Look(s), Look(More(s, rest)), rest) { LookMore(s, rest); }
    var s1 := Look(s).0;
    DrainMore(l, s1, stop, kill, rest);
    var e := Drain(l, s1, stop, kill);
    if e.Goes? { EscalateMore(l, e.s, e.shutdownAt, kill, rest); }
  }

  lemma {:induction false} WatchMore(l: Limits, s: State, stop: Option<real>, kill: Option<real>, rest: seq<Moment>)
    ensures Resumes(Watch(l, s, stop, kill), Watch(l, More(s, rest), stop, kill), rest)
    decreases |s.script|
  {
    hide Cycle, Sleep, Attempt;
    CycleMore(l, s, stop, kill, rest);
    var e := Cycle(l, s, stop, kill);
    if e.Goes? {
      if Enough(Sleep(l, e.s), Sleep(l, More(e.s, rest)), rest) { SleepMore(l, e.s, rest); }
      var (s1, f) := Sleep(l, e.s);
      if f == Fine { WatchMore(l, s1, e.shutdownAt, e.killAt, rest); }
    }
  }

  lemma SpawnMore(s: State, rest: seq<Moment>)
    requires s.script != []
    ensures Alike(Spawn(s), Spawn(More(s, rest)), rest)
  {
    hide Wake;
    WakeMore(s, rest);
  }

  lemma BodyMore(l: Limits, s: State, rest: seq<Moment>)
    ensures Resumes(Body(l, s), Body(l, More(s, rest)), rest)
  {
    hide Watch, Attempt;
    if s.script != [] {
      SpawnMore(s, rest);
      WatchMore(l, Spawn(s).0, None, None, rest);
    }
  }

  // ------------------------------------------------------- from longer to shorter

  /** The stretch ended on a guard that refused or failed. */
  ghost predicate Refused(e: End) { (e.Forsakes? || e.Throws?) && Silenced(e.s.log) }

  /** Cut short after `k` moments the stretch, now `e`, was about to ask the guard, and that
      guard did not hold. */
  ghost predicate Stumbles(script: seq<Moment>, k: nat, e: End) {
    k < |script| && script[k].guard != Holds && e.Halts? && e.asks.Some?
  }

  lemma HoldsTells(s: State, cause: Cause)
    requires Guarded(s.log)
    ensures var (s1, f) := Attempt(s, cause);
            && (f == Fine ==> Guarded(s1.log))
            && (Silenced(s1.log) ==> s.script != [] && s.script[0].guard != Holds)
  {}

  lemma GuardedNotSilenced(log: seq<Deed>)
    requires Guarded(log)
    ensures !Silenced(log)
  {}

  lemma AttemptCut(s: State, cause: Cause, k: nat)
    requires Attempt(s, cause).1 == Fine && k <= |Attempt(s, cause).0.script|
    ensures var s1 := Attempt(s, cause).0;
            var n := |s.script| - |s1.script| + k;
            n <= |s.script| && Attempt(Cut(s, n), cause) == (Cut(s1, k), Fine) && s.script[n..] == s1.script[k..]
  {
    hide Attempt;
    var s1 := Attempt(s, cause).0;
    var n := |s.script| - |s1.script| + k;
    CutMore(s, n);
    AttemptMore(Cut(s, n), cause, s.script[n..]);
    MoreCut(s1, Attempt(Cut(s, n), cause).0, k, s.script[n..]);
  }

  lemma LookCut(s: State, k: nat)
    requires Look(s).1 == Fine && k <= |Look(s).0.script|
    ensures var s1 := Look(s).0;
            var n := |s.script| - |s1.script| + k;
            n <= |s.script| && Look(Cut(s, n)) == (Cut(s1, k), Fine) && s.script[n..] == s1.script[k..]
  {
    hide Look;
    var s1 := Look(s).0;
    var n := |s.script| - |s1.script| + k;
    CutMore(s, n);
    LookMore(Cut(s, n), s.script[n..]);
    MoreCut(s1, Look(Cut(s, n)).0, k, s.script[n..]);
  }

  lemma SleepCut(l: Limits, s: State, k: nat)
    requires Sleep(l, s).1 == Fine && k <= |Sleep(l, s).0.script|
    ensures var s1 := Sleep(l, s).0;
            var n := |s.script| - |s1.script| + k;
            n <= |s.script| && Sleep(l, Cut(s, n)) == (Cut(s1, k), Fine) && s.script[n..] == s1.script[k..]
  {
    hide Sleep;
    var s1 := Sleep(l, s).0;
    var n := |s.script| - |s1.script| + k;
    CutMore(s, n);
    SleepMore(l, Cut(s, n), s.script[n..]);
    MoreCut(s1, Sleep(l, Cut(s, n)).0, k, s.script[n..]);
  }

  /** A stretch that went on, cut within what it left. */
  lemma DrainCut(l: Limits, s: State, stop: Option<real>, kill: Option<real>, k: nat)
    requires Drain(l, s, stop, kill).Goes? && k <= |Drain(l, s, stop, kill).s.script|
    ensures var e := Drain(l, s, stop, kill);
            var n := |s.script| - |e.s.script| + k;
            n <= |s.script| && Drain(l, Cut(s, n), stop, kill) == Goes(Cut(e.s, k), e.shutdownAt, e.killAt)
            && s.script[n..] == e.s.script[k..]
  {
    hide Drain, Attempt;
    var e := Drain(l, s, stop, kill);
    var n := |s.script| - |e.s.script| + k;
    CutMore(s, n);
    DrainMore(l, Cut(s, n), stop, kill, s.script[n..]);
    MoreCut(e.s, Drain(l, Cut(s, n), stop, kill).s, k, s.script[n..]);
  }

  lemma CycleCut(l: Limits, s: State, stop: Option<real>, kill: Option<real>, k: nat)
    requires Cycle(l, s, stop, kill).Goes? && k <= |Cycle(l, s, stop, kill).s.script|
    ensures var e := Cycle(l, s, stop, kill);
            var n := |s.script| - |e.s.script| + k;
            n <= |s.script| && Cycle(l, Cut(s, n), stop, kill) == Goes(Cut(e.s, k), e.shutdownAt, e.killAt)
            && s.script[n..] == e.s.script[k..]
  {
    hide Cycle, Attempt;
    var e := Cycle(l, s, stop, kill);
    var n := |s.script| - |e.s.script| + k;
    CutMore(s, n);
    CycleMore(l, Cut(s, n), stop, kill, s.script[n..]);
    MoreCut(e.s, Cycle(l, Cut(s, n), stop, kill).s, k, s.script[n..]);
  }

  lemma {:induction false} DrainAsked(l: Limits, s: State, stop: Option<real>, kill: Option<real>) returns (k: nat)
    requires Guarded(s.log) && Refused(Drain(l, s, stop, kill))
    ensures k <= |s.script| && Stumbles(s.script, k, Drain(l, Cut(s, k), stop, kill))
    decreases |s.script|
  {
    hide Attempt, Guarded, Silenced;
    var s', cause := s.(pending := s.pending[1..]), Relay(s.pending[0]);
    HoldsTells(s', cause);
    var (s1, f) := Attempt(s', cause);
    if f == Fine {
      var k1 := DrainAsked(l, s1, Deadline(l, s.pending[0], stop, s1.now), kill);
      AttemptCut(s', cause, k1);
      k := |s.script| - |s1.script| + k1;
      assert Cut(s', k) == Cut(s, k).(pending := s.pending[1..]);
    } else {
      k := 0;
    }
  }

  lemma EscalateAsked(l: Limits, s: State, stop: Option<real>, kill: Option<real>)
    requires Guarded(s.log) && Refused(Escalate(l, s, stop, kill))
    ensures Stumbles(s.script, 0, Escalate(l, Cut(s, 0), stop, kill))
  {
    hide Attempt, Guarded, Silenced;
    GuardedNotSilenced(s.log);
    HoldsTells(s, Escalation);
    if Guarded(Attempt(s, Escalation).0.log) { GuardedNotSilenced(Attempt(s, Escalation).0.log); }
  }

  lemma CycleAsked(l: Limits, s: State, stop: Option<real>, kill: Option<real>) returns (k: nat)
    requires Ledger(l, s, stop, kill) && Refused(Cycle(l, s, stop, kill))
    ensures k <= |s.script| && Stumbles(s.script, k, Cycle(l, Cut(s, k), stop, kill))
  {
    hide Look, Drain, Escalate, Ledger, Guarded, Silenced, Left, Suffix, Queued, Attempt;
    LookLedger(l, s, stop, kill);
    var s1 := Look(s).0;
    LedgerParts(l, s1, stop, kill);
    GuardedNotSilenced(s1.log);
    DrainKeeps(l, s1, stop, kill);
    var e := Drain(l, s1, stop, kill);
    var k1;
    if e.Goes? {
      LedgerParts(l, e.s, e.shutdownAt, kill);
      EscalateAsked(l, e.s, e.shutdownAt, kill);
      DrainCut(l, s1, stop, kill, 0);
      k1 := |s1.script| - |e.s.script|;
    } else {
      k1 := DrainAsked(l, s1, stop, kill);
    }
    LookCut(s, k1);
    k := |s.script| - |s1.script| + k1;
  }

  lemma {:induction false} WatchAsked(l: Limits, s: State, stop: Option<real>, kill: Option<real>) returns (k: nat)
    requires Ledger(l, s, stop, kill) && Timely(l, s.script) && Refused(Watch(l, s, stop, kill))
    ensures k <= |s.script| && Stumbles(s.script, k, Watch(l, Cut(s, k), stop, kill))
    decreases |s.script|
  {
    hide Cycle, Sleep, Ledger, Left, Timely, Suffix, Paced, Due, Silenced;
    CycleKeeps(l, s, stop, kill);
    var e := Cycle(l, s, stop, kill);
    if e.Goes? {
      TimelySuffix(l, s.script, e.s.script);
      SleepKeeps(l, e.s, e.shutdownAt, e.killAt);
      var (s1, f) := Sleep(l, e.s);
      SleepQuiet(l, e.s, e.shutdownAt, e.killAt);
      TimelySuffix(l, e.s.script, s1.script);
      var k1 := WatchAsked(l, s1, e.shutdownAt, e.killAt);
      SleepCut(l, e.s, k1);
      var k2 := |e.s.script| - |s1.script| + k1;
      CycleCut(l, s, stop, kill, k2);
      k := |s.script| - |e.s.script| + k2;
    } else {
      k := CycleAsked(l, s, stop, kill);
    }
  }

  lemma SleepQuiet(l: Limits, s: State, stop: Option<real>, kill: Option<real>)
    requires Ledger(l, s, stop, kill)
    ensures !Silenced(Sleep(l, s).0.log)
  {}

  /** After `k` moments of the schedule the `try` block is about to ask the guard for a signal. */
  ghost predicate Asks(l: Limits, now: real, script: seq<Moment>, k: nat)
    requires k <= |script|
  {
    var e := Body(l, Start(now, script[..k]));
    e.Halts? && e.asks.Some?
  }

  lemma SpawnCut(s: State, k: nat)
    requires Spawn(s).1 == Fine && k < |s.script|
    ensures |Spawn(s).0.script| == |s.script| - 1
    ensures Spawn(Cut(s, k + 1)) == (Cut(Spawn(s).0, k), Fine)
  {
    hide Spawn;
    SpawnUses(s);
    CutMore(s, k + 1);
    SpawnMore(Cut(s, k + 1), s.script[k + 1..]);
    MoreCut(Spawn(s).0, Spawn(Cut(s, k + 1)).0, k, s.script[k + 1..]);
  }

  lemma SpawnBegins(l: Limits, s: State)
    requires Sane(l) && Timely(l, s.script) && Spawn(s).1 == Fine
    requires Queued(s) && Served(s) == [] && s.log == [] && s.child == NotStarted
    ensures var s1 := Spawn(s).0; Ledger(l, s1, None, None) && Timely(l, s1.script)
  {
    hide Spawn, Ledger, Timely, Suffix;
    SpawnKeeps(s);
    EmptyAccounts(l, Spawn(s).0);
    TimelySuffix(l, s.script, Spawn(s).0.script);
  }

  /** A spawned child, and a `try` block that ended on a failing guard: at some moment it asked
      for a signal, and there the guard failed. */
  lemma BodyAsked(l: Limits, now: real, script: seq<Moment>) returns (k: nat)
    requires Sane(l) && Timely(l, script)
    requires Spawn(Start(now, script)).1 == Fine && Refused(Body(l, Start(now, script)))
    ensures k < |script| && Asks(l, now, script, k) && script[k].guard != Holds
  {
    hide Watch, Refused, Spawn, Timely, Ledger;
    var s := Start(now, script);
    SpawnBegins(l, s);
    SpawnUses(s);
    var k1 := WatchAsked(l, Spawn(s).0, None, None);
    k := k1 + 1;
    SpawnCut(s, k1);
    assert Cut(s, k) == Start(now, script[..k]);
  }

  lemma SpawnUses(s: State)
    requires Spawn(s).1 != Stuck
    ensures s.script != [] && Spawn(s).0.script == s.script[1..]
  {}

  // ------------------------------------------------------------- the child's life

  /** The child is left alone by its surroundings. */
  ghost predicate Quiet(script: seq<Moment>) { forall m | m in script :: m.turn == Stays }

  ghost function CodeOf(child: Child): Option<int> {
    match child
    case Exited(code) => Some(code)
    case Reaped(code) => Some(code)
    case _ => None
  }

  /** A moment at which the child ended with this code. */
  ghost predicate EndsWith(script: seq<Moment>, code: Option<int>) { exists m | m in script :: m.turn.Ends? && Some(m.turn.code) == code }

  /** A child is alive as long as every moment leaves it alone, and its exit code is one it
      ended with. */
  ghost predicate Lived(s: State, s': State) {
    && Suffix(s.script, s'.script) && (s'.child == NotStarted <==> s.child == NotStarted)
    && (s'.child.Alive? <==> s.child.Alive? && Quiet(s.script[..|s.script| - |s'.script|]))
    && (CodeOf(s'.child).Some? ==>
          CodeOf(s'.child) == CodeOf(s.child) || EndsWith(s.script[..|s.script| - |s'.script|], CodeOf(s'.child)))
  }

  lemma LivedThrough(a: State, b: State, c: State)
    requires Lived(a, b) && Lived(b, c)
    ensures Lived(a, c)
  {
    var m, n := |a.script| - |b.script|, |a.script| - |c.script|;
    assert a.script[..n] == a.script[..m] + b.script[..|b.script| - |c.script|];
  }

  lemma LivedStill(s: State, s': State)
    requires s'.script == s.script && s'.child.Alive? == s.child.Alive? && CodeOf(s'.child) == CodeOf(s.child)
    requires s'.child == NotStarted <==> s.child == NotStarted
    ensures Lived(s, s')
  {}

  lemma WakeLives(s: State)
    requires s.script != []
    ensures Lived(s, Wake(s))
  {
    assert s.script[..1] == [s.script[0]];
  }

  lemma LookLives(s: State)
    ensures Lived(s, Look(s).0)
  {
    hide Wake, Lived;
    if s.script == [] { LivedStill(s, s); } else { WakeLives(s); }
  }

  lemma StrikeLives(s: State, cause: Cause)
    ensures Lived(s, Strike(s, cause).0)
  {
    hide Look, Lived;
    LookLives(s);
    LivedStill(Look(s).0, Strike(s, cause).0);
    LivedThrough(s, Look(s).0, Strike(s, cause).0);
  }

  lemma AttemptLives(s: State, cause: Cause)
    ensures Lived(s, Attempt(s, cause).0)
  {
    hide Wake, Strike, Lived;
    if s.script == [] { LivedStill(s, s); return; }
    var s1, s2 := Wake(s), Strike(Wake(s), cause).0;
    WakeLives(s);
    if s.script[0].guard in {Refuses, BreaksIn} {
      LivedStill(s1, Attempt(s, cause).0);
    } else {
      StrikeLives(s1, cause);
      LivedStill(s2, Attempt(s, cause).0);
      LivedThrough(s1, s2, Attempt(s, cause).0);
    }
    LivedThrough(s, s1, Attempt(s, cause).0);
  }

  lemma SleepLives(l: Limits, s: State)
    ensures Lived(s, Sleep(l, s).0)
  {
    hide Wake, Lived;
    if s.script == [] { LivedStill(s, s); return; }
    WakeLives(s);
    LivedStill(Wake(s), Sleep(l, s).0);
    LivedThrough(s, Wake(s), Sleep(l, s).0);
  }

  lemma {:induction false} DrainLives(l: Limits, s: State, stop: Option<real>, kill: Option<real>)
    ensures Lived(s, Drain(l, s, stop, kill).s)
    decreases |s.script|
  {
    hide Attempt, Lived;
    if s.pending == [] { LivedStill(s, s); return; }
    var s' := s.(pending := s.pending[1..]);
    LivedStill(s, s');
    AttemptLives(s', Relay(s.pending[0]));
    var (s1, f) := Attempt(s', Relay(s.pending[0]));
    LivedThrough(s, s', s1);
    if f == Fine {
      var stop1 := Deadline(l, s.pending[0], stop, s1.now);
      DrainLives(l, s1, stop1, kill);
      LivedThrough(s, s1, Drain(l, s1, stop1, kill).s);
    }
  }

  lemma EscalateLives(l: Limits, s: State, stop: Option<real>, kill: Option<real>)
    ensures Lived(s, Escalate(l, s, stop, kill).s)
  {
    hide Attempt, Lived;
    LivedStill(s, s);
    AttemptLives(s, Escalation);
  }

  lemma CycleLives(l: Limits, s: State, stop: Option<real>, kill: Option<real>)
    ensures Lived(s, Cycle(l, s, stop, kill).s)
  {
    hide Look, Drain, Escalate, Lived;
    LookLives(s);
    var s1 := Look(s).0;
    LivedStill(s1, s1);
    if s1.child.Exited? {
      LivedStill(s1, s1.(child := Reaped(s1.child.code)));
      LivedThrough(s, s1, s1.(child := Reaped(s1.child.code)));
    }
    DrainLives(l, s1, stop, kill);
    var e := Drain(l, s1, stop, kill);
    LivedThrough(s, s1, e.s);
    if e.Goes? {
      EscalateLives(l, e.s, e.shutdownAt, kill);
      LivedThrough(s, e.s, Escalate(l, e.s, e.shutdownAt, kill).s);
    }
  }

  lemma {:induction false} WatchLives(l: Limits, s: State, stop: Option<real>, kill: Option<real>)
    ensures Lived(s, Watch(l, s, stop, kill).s)
    decreases |s.script|
  {
    hide Cycle, Sleep, Lived;
    CycleLives(l, s, stop, kill);
    var e := Cycle(l, s, stop, kill);
    if e.Goes? {
      SleepLives(l, e.s);
      var (s1, f) := Sleep(l, e.s);
      LivedThrough(s, e.s, s1);
      if f == Fine {
        WatchLives(l, s1, e.shutdownAt, e.killAt);
        LivedThrough(s, s1, Watch(l, s1, e.shutdownAt, e.killAt).s);
      }
    }
  }

  /** The state a run reaches with `script[j..]` still to come, its child alive exactly when
      nothing happened to it since the spawn. */
  ghost predicate Reached(script: seq<Moment>, j: nat, s: State) {
    1 <= j <= |script| && s.script == script[j..] && (s.child.Alive? <==> Quiet(script[1..j]))
  }

  lemma ReachedThrough(script: seq<Moment>, j: nat, s: State, s': State)
    requires Reached(script, j, s) && Lived(s, s')
    ensures Reached(script, |script| - |s'.script|, s')
  {
    var n := |script| - |s'.script|;
    assert s'.script == s.script[|s.script| - |s'.script|..] == script[n..];
    assert script[1..n] == script[1..j] + s.script[..|s.script| - |s'.script|];
  }

  lemma SpawnReaches(now: real, script: seq<Moment>)
    requires Spawn(Start(now, script)).0.child.Alive?
    ensures Reached(script, 1, Spawn(Start(now, script)).0)
  {}

  /** The state in which the run on the first `k` moments asks its guard. */
  lemma AskReached(l: Limits, now: real, script: seq<Moment>, k: nat)
    requires k < |script| && Asks(l, now, script, k)
    ensures Reached(script, k, More(Body(l, Start(now, script[..k])).s, script[k..]))
  {
    hide Watch, Spawn, Lived;
    var begun := Start(now, script[..k]);
    var e := Body(l, begun);
    var s1 := Spawn(begun).0;
    SpawnFine(begun);
    SpawnReaches(now, script[..k]);
    WatchLives(l, s1, None, None);
    ReachedThrough(script[..k], 1, s1, e.s);
    BodyMore(l, begun, script[k..]);
    assert script[..k][1..k] == script[1..k];
  }

  /** Where the run on the first `k` moments asks its guard, the whole run asks it. */
  lemma AskedThere(l: Limits, now: real, script: seq<Moment>, k: nat) returns (s: State, cause: Cause)
    requires k < |script| && Asks(l, now, script, k) && script[k].guard != Holds
    ensures Reached(script, k, s)
    ensures var (s1, f) := Attempt(s, cause); Body(l, Start(now, script)) == Unsent(s1, f, Ask(s, cause))
  {
    hide Body, Attempt, Reached;
    var begun := Start(now, script[..k]);
    var e := Body(l, begun);
    s, cause := More(e.s, script[k..]), e.asks.value;
    AskReached(l, now, script, k);
    CutMore(Start(now, script), k);
    BodyMore(l, begun, script[k..]);
    FailedTells(s, cause);
  }

  lemma SpawnFine(s: State)
    requires Spawn(s).1 == Fine
    ensures Spawn(s).0.child.Alive?
  {}

  /** An attempt whose guard fails. */
  lemma FailedTells(s: State, cause: Cause)
    requires s.script != [] && s.script[0].guard != Holds
    ensures var (s1, f) := Attempt(s, cause);
            && f in {Failed, Broken, Stuck} && (f == Stuck <==> s.script[0].guard in {Slips, BreaksOut} && |s.script| == 1)
            && (f != Stuck ==>
                  && Silenced(s1.log) && (f == Failed <==> s.script[0].guard in {Refuses, Slips})
                  && |s.script| - |s1.script| == if s.script[0].guard in {Refuses, BreaksIn} then 1 else 2)
  {}
}
