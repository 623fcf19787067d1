/**
 What holds of every run of the supervisor, over all schedules.
 */
module ForegroundRuns {
  import opened Schema
  import opened ForegroundModel

  // ------------------------------------------------------------- reading the log

  ghost predicate Stops(d: Deed) { d.Send? && d.cause in {Relay(Term), Relay(Int)} }

  ghost predicate Escalates(d: Deed) { d.Send? && d.cause == Escalation }

  /** When the first deed of a kind was done. */
  ghost function First(log: seq<Deed>, kind: Deed -> bool): Option<real> {
    if log == [] then None
    else
      var before := First(log[..|log| - 1], kind);
      if before.Some? then before
      else if kind(log[|log| - 1]) then Some(log[|log| - 1].at) else None
  }

  ghost function Numbers(d: Deed): seq<Signal> { if d.Send? && d.cause.Relay? then [d.cause.number] else [] }

  /** The signals taken from the queue, in order. */
  ghost function Handled(log: seq<Deed>): seq<Signal> {
    if log == [] then [] else Handled(log[..|log| - 1]) + Numbers(log[|log| - 1])
  }

  ghost function Escalations(log: seq<Deed>): nat {
    if log == [] then 0 else Escalations(log[..|log| - 1]) + (if Escalates(log[|log| - 1]) then 1 else 0)
  }

  /** No guard has refused or failed. */
  ghost predicate Guarded(log: seq<Deed>) { forall d | d in log :: !d.Denied? }

  /** Only the last deed may be a refusal. */
  ghost predicate Fresh(log: seq<Deed>) { forall i | 0 <= i < |log| - 1 :: !log[i].Denied? }

  ghost predicate Silenced(log: seq<Deed>) { log != [] && log[|log| - 1].Denied? }

  /** A signal went out after a guard had refused or failed. */
  ghost predicate SignalAfterRefusal(log: seq<Deed>) {
    exists i, j :: 0 <= i < j < |log| && log[i].Denied? && log[j].Send? && log[j].sent
  }

  /** What one more deed adds to every reading of the log. */
  lemma LogGrows(log: seq<Deed>, d: Deed)
    ensures First(log + [d], Stops) == (if First(log, Stops).Some? then First(log, Stops) else if Stops(d) then Some(d.at) else None)
    ensures First(log + [d], Escalates) == (if First(log, Escalates).Some? then First(log, Escalates) else if Escalates(d) then Some(d.at) else None)
    ensures Handled(log + [d]) == Handled(log) + Numbers(d)
    ensures Escalations(log + [d]) == Escalations(log) + (if Escalates(d) then 1 else 0)
    ensures Guarded(log) ==> Fresh(log + [d]) && (d.Denied? || Guarded(log + [d]))
  {
    assert (log + [d])[..|log|] == log;
  }

  lemma Silence()
    ensures First([], Stops).None? && First([], Escalates).None? && Handled([]) == [] && Escalations([]) == 0
    ensures Guarded([]) && Fresh([])
  {}

  // ----------------------------------------------------------------- the queue

  /** What is queued is the tail of what was accepted. */
  ghost predicate Queued(s: State) {
    && |s.pending| <= CAPACITY && |s.pending| <= |s.accepted|
    && s.pending == s.accepted[|s.accepted| - |s.pending|..]
  }

  /** The queued signals that were taken out again. */
  ghost function Served(s: State): seq<Signal>
    requires Queued(s)
  {
    s.accepted[..|s.accepted| - |s.pending|]
  }

  ghost predicate Suffix(whole: seq<Moment>, rest: seq<Moment>) {
    |rest| <= |whole| && rest == whole[|whole| - |rest|..]
  }

  lemma SuffixItself(a: seq<Moment>)
    ensures Suffix(a, a)
  {}

  lemma SuffixOfSuffix(a: seq<Moment>, b: seq<Moment>, c: seq<Moment>)
    requires Suffix(a, b) && Suffix(b, c)
    ensures Suffix(a, c)
  {}

  /** The environment had some turns; nothing was taken from the queue and no time passed. */
  ghost predicate Kept(s: State, s': State) {
    && Queued(s) && Queued(s') && Served(s') == Served(s) && Suffix(s.script, s'.script)
    && s'.now == s.now && s'.naps == s.naps
    && (s'.child == NotStarted <==> s.child == NotStarted) && (s'.child.Reaped? <==> s.child.Reaped?)
  }

  lemma KeptThrough(a: State, b: State, c: State)
    requires Kept(a, b) && Kept(b, c)
    ensures Kept(a, c)
  {
    SuffixOfSuffix(a.script, b.script, c.script);
  }

  lemma WakeKeeps(s: State)
    requires s.script != [] && Queued(s)
    ensures Kept(s, Wake(s)) && Wake(s).log == s.log
  {
    var s', m := Wake(s), s.script[0];
    var taken := m.arrivals[..Room(|s.pending|, |m.arrivals|)];
    var n := |s.accepted| - |s.pending|;
    assert s'.accepted[n..] == s.accepted[n..] + taken;
    assert s'.accepted[..n] == s.accepted[..n];
  }

  lemma LookKeeps(s: State)
    requires Queued(s)
    ensures Kept(s, Look(s).0) && Look(s).0.log == s.log
    ensures Look(s).1 == Missing ==> !Look(s).0.child.Alive? && !Look(s).0.child.Exited?
    ensures Look(s).1 == Fine ==> Look(s).0.child.Alive? || Look(s).0.child.Exited?
  {
    hide Wake, Kept;
    if s.script == [] { KeptItself(s); } else { WakeKeeps(s); }
  }

  lemma KeptItself(s: State)
    requires Queued(s)
    ensures Kept(s, s)
  {}

  /** What the guarded body of one attempt may leave in the log. */
  ghost predicate Struck(before: seq<Deed>, log: seq<Deed>, cause: Cause, f: Flow, at: real) {
    match f
    case Fine => log == before + [Send(cause, true, at)] || log == before + [Send(cause, false, at)]
    case Failed => log == before + [Erred(at)]
    case _ => log == before
  }

  ghost predicate Whatever(before: seq<Deed>, log: seq<Deed>, cause: Cause, at: real) {
    || log == before || log == before + [Erred(at)]
    || log == before + [Send(cause, true, at)] || log == before + [Send(cause, false, at)]
  }

  /** And what the whole attempt may: the guard's own failure comes last. */
  ghost predicate Tells(before: seq<Deed>, log: seq<Deed>, cause: Cause, f: Flow, at: real) {
    match f
    case Failed =>
      || log == before + [Erred(at)]
      || (log != [] && log[|log| - 1] == Denied(at) && Whatever(before, log[..|log| - 1], cause, at))
    case Broken =>
      || Whatever(before, log, cause, at)
      || (log != [] && log[|log| - 1] == Denied(at) && Whatever(before, log[..|log| - 1], cause, at))
    case _ => Struck(before, log, cause, f, at)
  }

  lemma StrikeKeeps(s: State, cause: Cause)
    requires Queued(s)
    ensures var (s1, f) := Strike(s, cause); Kept(s, s1) && Struck(s.log, s1.log, cause, f, s.now)
  {
    hide Kept, Look;
    LookKeeps(s);
    var s1, s2 := Look(s).0, Strike(s, cause).0;
    KeptQueue(s, s1);
    Same(s1, s2);
    KeptThrough(s, s1, s2);
  }

  lemma LeaveTells(before: seq<Deed>, guard: Guard, s: State, cause: Cause, f: Flow)
    requires Queued(s) && Struck(before, s.log, cause, f, s.now) && f != Missing
    ensures var (s1, g) := Leave(guard, s, f); Kept(s, s1) && Tells(before, s1.log, cause, g, s.now)
  {
    hide Kept;
    var s1 := Leave(guard, s, f).0;
    Same(s, s1);
    if s1.log == s.log + [Denied(s.now)] { assert s1.log[..|s1.log| - 1] == s.log; }
  }

  lemma ShutTells(before: seq<Deed>, cause: Cause, at: real)
    ensures Tells(before, before + [Denied(at)], cause, Failed, at) && Tells(before, before + [Denied(at)], cause, Broken, at)
    ensures Tells(before, before, cause, Stuck, at)
  {
    assert (before + [Denied(at)])[..|before|] == before;
  }

  lemma AttemptKeeps(s: State, cause: Cause)
    requires Queued(s)
    ensures var (s1, f) := Attempt(s, cause); Kept(s, s1) && Tells(s.log, s1.log, cause, f, s.now)
  {
    hide Wake, Kept, Queued, Strike, Leave, Struck, Tells;
    ShutTells(s.log, cause, s.now);
    if s.script == [] { KeptItself(s); return; }
    var s1, guard := Wake(s), s.script[0].guard;
    WakeKeeps(s);
    KeptQueue(s, s1);
    if guard in {Refuses, BreaksIn} {
      Same(s1, Attempt(s, cause).0);
      KeptThrough(s, s1, Attempt(s, cause).0);
    } else {
      var (s2, f) := Strike(s1, cause);
      StrikeKeeps(s1, cause);
      KeptQueue(s1, s2);
      KeptThrough(s, s1, s2);
      LeaveTells(s.log, guard, s2, cause, f);
      KeptThrough(s, s2, Attempt(s, cause).0);
    }
  }

  lemma KeptQueue(s: State, s': State)
    requires Kept(s, s')
    ensures Queued(s') && s'.now == s.now
  {}

  /** The log is no part of `Kept`. */
  lemma Same(s: State, s': State)
    requires Queued(s) && s' == s.(log := s'.log)
    ensures Kept(s, s')
  {}

  ghost predicate Starts(cause: Cause) { cause in {Relay(Term), Relay(Int)} }

  /** The readings of the log after an attempt. */
  lemma TellsReads(before: seq<Deed>, log: seq<Deed>, cause: Cause, f: Flow, at: real)
    requires Tells(before, log, cause, f, at)
    ensures First(log, Stops) == First(before, Stops) || (First(before, Stops).None? && Starts(cause) && First(log, Stops) == Some(at))
    ensures First(log, Escalates) == First(before, Escalates)
            || (First(before, Escalates).None? && cause == Escalation && First(log, Escalates) == Some(at))
    ensures Handled(log) == Handled(before) || (cause.Relay? && Handled(log) == Handled(before) + [cause.number])
    ensures Escalations(log) == Escalations(before) || (cause == Escalation && Escalations(log) == Escalations(before) + 1)
    ensures f == Fine ==>
      && (Starts(cause) ==> First(log, Stops).Some?) && (cause == Escalation ==> First(log, Escalates).Some?)
      && Handled(log) == Handled(before) + (if cause.Relay? then [cause.number] else [])
      && Escalations(log) == Escalations(before) + (if cause == Escalation then 1 else 0)
    ensures Guarded(before) ==> Fresh(log) && (f !in {Failed, Broken} ==> Guarded(log))
    ensures f == Failed ==> log != [] && !log[|log| - 1].Send?
  {
    hide First, Handled, Escalations, Guarded, Fresh;
    var last := f == Failed || (f == Broken && !Whatever(before, log, cause, at));
    var rest := if last then log[..|log| - 1] else log;
    if f == Failed && log == before + [Erred(at)] { assert rest == before; }
    assert Whatever(before, rest, cause, at);
    WhateverReads(before, rest, cause, at);
    if last {
      assert log == rest + [log[|log| - 1]];
      LogGrows(rest, log[|log| - 1]);
    } else if Guarded(before) {
      GuardedIsFresh(log);
    }
  }

  lemma GuardedIsFresh(log: seq<Deed>)
    requires Guarded(log)
    ensures Fresh(log)
  {}

  lemma WhateverReads(before: seq<Deed>, log: seq<Deed>, cause: Cause, at: real)
    requires Whatever(before, log, cause, at)
    ensures First(log, Stops) == First(before, Stops) || (First(before, Stops).None? && Starts(cause) && First(log, Stops) == Some(at))
    ensures First(log, Escalates) == First(before, Escalates)
            || (First(before, Escalates).None? && cause == Escalation && First(log, Escalates) == Some(at))
    ensures Handled(log) == Handled(before) || (cause.Relay? && Handled(log) == Handled(before) + [cause.number])
    ensures Escalations(log) == Escalations(before) || (cause == Escalation && Escalations(log) == Escalations(before) + 1)
    ensures log != before && log[|log| - 1].Send? ==>
      && (Starts(cause) ==> First(log, Stops).Some?) && (cause == Escalation ==> First(log, Escalates).Some?)
      && Handled(log) == Handled(before) + (if cause.Relay? then [cause.number] else [])
      && Escalations(log) == Escalations(before) + (if cause == Escalation then 1 else 0)
    ensures Guarded(before) ==> Guarded(log)
  {
    hide First, Handled, Escalations, Guarded;
    if log != before {
      var d := log[|log| - 1];
      assert log == before + [d];
      LogGrows(before, d);
    }
  }

  // --------------------------------------------------------- the loop's accounts

  /** There is a child, and nobody here has reaped it. */
  ghost predicate Started(s: State) { s.child != NotStarted && !s.child.Reaped? }

  /** Signals are handled in the order they were queued and at most the last one taken is
      lost; SIGKILL escalates at most once, after the grace period; and a handled TERM or
      INT is not longer ago than the loop may take, and `extra`. */
  ghost predicate Books(l: Limits, s: State, extra: real) {
    var stop, kill := First(s.log, Stops), First(s.log, Escalates);
    && Queued(s) && Escalations(s.log) <= 1
    && Handled(s.log) <= Served(s) && |Served(s)| <= |Handled(s.log)| + 1
    && (kill.Some? ==> stop.Some? && stop.value + l.grace <= kill.value)
    && (stop.Some? ==> s.now <= stop.value + l.grace + l.killWait + 2.0 * Nap(l) + extra)
  }

  /** What holds however a stretch of the `try` block ends. */
  ghost predicate Account(l: Limits, s: State) { Books(l, s, 0.0) && Fresh(s.log) }

  /** What the loop remembers, against what it did. */
  ghost predicate Ledger(l: Limits, s: State, shutdownAt: Option<real>, killAt: Option<real>) {
    var stop, kill := First(s.log, Stops), First(s.log, Escalates);
    && Sane(l) && Queued(s) && Started(s) && Guarded(s.log) && Handled(s.log) == Served(s)
    && shutdownAt == (if stop.Some? then Some(stop.value + l.grace) else None)
    && killAt == (if kill.Some? then Some(kill.value + l.killWait) else None)
    && Escalations(s.log) == (if killAt.Some? then 1 else 0)
    && (shutdownAt.Some? && killAt.None? ==> s.now < shutdownAt.value + Nap(l))
    && (killAt.Some? ==>
          && shutdownAt.Some? && shutdownAt.value <= kill.value < shutdownAt.value + Nap(l)
          && s.now < killAt.value + Nap(l))
  }

  lemma LedgerAccounts(l: Limits, s: State, shutdownAt: Option<real>, killAt: Option<real>)
    requires Ledger(l, s, shutdownAt, killAt)
    ensures Account(l, s) && Guarded(s.log) && Started(s)
  {
    hide First, Handled, Escalations;
  }

  /** What a result says about the child is so, and only a child that is alive, or that
      somebody else took, is left unreaped. */
  ghost predicate Truthful(s: State, o: Outcome) {
    o.Returned? ==>
      && o.started == (s.child != NotStarted) && o.reaped == s.child.Reaped?
      && o.code == (if s.child.Reaped? then Some(s.child.code) else None)
      && (o.started && !o.reaped && o.reason != ChildWaitOwnershipLost ==> s.child.Alive?)
      && (o.reason == ChildWaitOwnershipLost ==> s.child == Lost)
  }

  /** What the reason given for a result says about what was done. */
  ghost predicate Explained(l: Limits, s: State, reason: Reason) {
    var stop, kill := First(s.log, Stops), First(s.log, Escalates);
    match reason
    case Disabled => s.child == NotStarted && s.log == []
    case SpawnRefused => s.child == NotStarted && (s.log == [] || (|s.log| == 1 && s.log[0].Denied?))
    case SpawnGuardFailed => |s.log| == 1 && s.log[0].Denied?
    case Finished => stop.None? && kill.None?
    case Signalled => stop.Some? && kill.None?
    case ShutdownEscalated => kill.Some?
    case SignalAuthorityLost => s.log != [] && !s.log[|s.log| - 1].Send?
    case ChildExitUnconfirmed => kill.Some? && s.now >= kill.value + l.killWait
    case ChildWaitOwnershipLost => s.child == Lost
    case SupervisorFailed => s.child.Reaped?
    case CleanupUnconfirmed => s.child != NotStarted
  }

  /** A stretch of the `try` block that did not simply go on. */
  ghost predicate Left(l: Limits, e: End) {
    match e
    case Goes(_, _, _) => true
    case Halts(s, _) => Account(l, s) && s.script == []
    case Throws(s) => Account(l, s) && !s.child.Reaped?
    case Forsakes(s, reason) =>
      && Account(l, s) && Started(s) && Explained(l, s, reason)
      && reason in {SpawnGuardFailed, SignalAuthorityLost, ChildExitUnconfirmed}
    case Returns(s, o) =>
      Account(l, s) && o.Returned? && o.reason != Disabled && Truthful(s, o) && Explained(l, s, o.reason)
  }

  /** The look at the start of a turn: nothing is done, and the accounts still hold. */
  lemma LookLedger(l: Limits, s: State, stop: Option<real>, kill: Option<real>)
    requires Ledger(l, s, stop, kill)
    ensures var s1 := Look(s).0; Ledger(l, s1, stop, kill) && Suffix(s.script, s1.script) && s1.naps == s.naps && s1.now == s.now
  {
    hide First, Handled, Escalations, Guarded, Look;
    LookKeeps(s);
  }

  /** An attempt that did not go well ends the loop with its accounts in order. */
  lemma UnsentLeaves(l: Limits, s: State, s1: State, cause: Cause, f: Flow, asks: Option<Cause>)
    requires Sane(l) && Kept(s, s1) && Started(s) && Tells(s.log, s1.log, cause, f, s.now) && Guarded(s.log)
    requires f in {Failed, Broken, Stuck} && cause != Cleanup && (f == Stuck ==> s1.script == [])
    requires Account(l, s)
    requires cause == Escalation ==> Escalations(s.log) == 0 && First(s.log, Escalates).None?
                                     && First(s.log, Stops).Some? && First(s.log, Stops).value + l.grace <= s.now
    requires cause.Relay? ==> Served(s) == Handled(s.log) + [cause.number]
    ensures Left(l, Unsent(s1, f, asks)) && !Unsent(s1, f, asks).Goes?
  {
    hide First, Handled, Escalations, Guarded, Fresh, Tells;
    TellsReads(s.log, s1.log, cause, f, s.now);
  }

  /** One signal is taken from the queue. */
  lemma PopServes(s: State)
    requires Queued(s) && s.pending != []
    ensures var s' := s.(pending := s.pending[1..]);
            Queued(s') && Served(s') == Served(s) + [s.pending[0]]
  {}

  lemma PopAccounts(l: Limits, s: State, stop: Option<real>, kill: Option<real>)
    requires Ledger(l, s, stop, kill) && s.pending != []
    ensures var s' := s.(pending := s.pending[1..]);
            Account(l, s') && Queued(s') && Served(s') == Handled(s.log) + [s.pending[0]]
  {
    hide First, Handled, Escalations;
    PopServes(s);
    LedgerAccounts(l, s, stop, kill);
  }

  /** A signal that was handled keeps the ledger. */
  lemma RelayKeeps(l: Limits, s: State, s': State, s1: State, stop: Option<real>, kill: Option<real>)
    requires Ledger(l, s, stop, kill) && s.pending != [] && s' == s.(pending := s.pending[1..])
    requires Kept(s', s1) && Tells(s.log, s1.log, Relay(s.pending[0]), Fine, s.now)
    ensures Ledger(l, s1, Deadline(l, s.pending[0], stop, s1.now), kill)
  {
    hide First, Handled, Escalations, Guarded, Fresh, Tells;
    PopServes(s);
    TellsReads(s.log, s1.log, Relay(s.pending[0]), Fine, s.now);
  }

  /** One signal taken from the queue: handled, or the end of the loop. */
  lemma RelayDone(l: Limits, s: State, stop: Option<real>, kill: Option<real>)
    requires Ledger(l, s, stop, kill) && s.pending != []
    ensures var (s1, f) := Attempt(s.(pending := s.pending[1..]), Relay(s.pending[0]));
            && Suffix(s.script, s1.script) && s1.now == s.now && s1.naps == s.naps
            && (f == Fine ==> Ledger(l, s1, Deadline(l, s.pending[0], stop, s1.now), kill))
            && (f != Fine ==> Left(l, Unsent(s1, f, Ask(s, Relay(s.pending[0])))))
  {
    hide Attempt, Ledger, Left, Account, Tells, Guarded, Suffix, Queued, Deadline;
    var s', cause := s.(pending := s.pending[1..]), Relay(s.pending[0]);
    PopAccounts(l, s, stop, kill);
    LedgerParts(l, s, stop, kill);
    AttemptKeeps(s', cause);
    var (s1, f) := Attempt(s', cause);
    if f == Fine { RelayKeeps(l, s, s', s1, stop, kill); } else { UnsentLeaves(l, s', s1, cause, f, Ask(s, cause)); }
  }

  lemma {:induction false} DrainKeeps(l: Limits, s: State, stop: Option<real>, kill: Option<real>)
    requires Ledger(l, s, stop, kill)
    ensures var e := Drain(l, s, stop, kill);
            && Left(l, e) && Suffix(s.script, e.s.script) && e.s.naps == s.naps && e.s.now == s.now && !e.Returns?
            && (e.Goes? ==> Ledger(l, e.s, e.shutdownAt, kill) && e.killAt == kill && e.s.pending == [])
    decreases |s.script|
  {
    hide Attempt, Ledger, Left, Suffix, Deadline;
    if s.pending == [] {
      SuffixItself(s.script);
      GoesLeaves(l, s, stop, kill);
    } else {
      RelayDone(l, s, stop, kill);
      var (s1, f) := Attempt(s.(pending := s.pending[1..]), Relay(s.pending[0]));
      if f == Fine {
        var stop1 := Deadline(l, s.pending[0], stop, s1.now);
        DrainKeeps(l, s1, stop1, kill);
        SuffixOfSuffix(s.script, s1.script, Drain(l, s1, stop1, kill).s.script);
      }
    }
  }

  lemma LedgerParts(l: Limits, s: State, stop: Option<real>, kill: Option<real>)
    requires Ledger(l, s, stop, kill)
    ensures Sane(l) && Queued(s) && Started(s) && Guarded(s.log)
  {}

  lemma GoesLeaves(l: Limits, s: State, stop: Option<real>, kill: Option<real>)
    ensures Left(l, Goes(s, stop, kill))
  {}

  /** The loop has not reached the deadline it has set. */
  ghost predicate Due(s: State, stop: Option<real>, kill: Option<real>) {
    (stop.Some? && kill.None? ==> s.now < stop.value) && (kill.Some? ==> s.now < kill.value)
  }

  lemma LingerKeeps(l: Limits, s: State, stop: Option<real>, kill: Option<real>)
    requires Ledger(l, s, stop, kill) && (stop.Some? && kill.None? ==> s.now < stop.value)
    ensures var e := Linger(s, stop, kill);
            Left(l, e) && e.s == s && (e.Goes? ==> e.shutdownAt == stop && e.killAt == kill && Due(s, stop, kill)) && !e.Returns?
  {
    hide First, Handled, Escalations, Guarded, Fresh, Account;
    LedgerAccounts(l, s, stop, kill);
  }

  /** A kill at the deadline keeps the ledger. */
  lemma KillKeeps(l: Limits, s: State, s1: State, stop: Option<real>)
    requires Ledger(l, s, stop, None) && stop.Some? && stop.value <= s.now
    requires Kept(s, s1) && Tells(s.log, s1.log, Escalation, Fine, s.now)
    ensures Ledger(l, s1, stop, Some(s.now + l.killWait))
  {
    hide First, Handled, Escalations, Guarded, Fresh, Tells;
    TellsReads(s.log, s1.log, Escalation, Fine, s.now);
  }

  lemma EscalateKeeps(l: Limits, s: State, stop: Option<real>, kill: Option<real>)
    requires Ledger(l, s, stop, kill)
    ensures var e := Escalate(l, s, stop, kill);
            && Left(l, e) && Suffix(s.script, e.s.script) && e.s.naps == s.naps && e.s.now == s.now && !e.Returns?
            && (e.Goes? ==> Ledger(l, e.s, e.shutdownAt, e.killAt) && Due(e.s, e.shutdownAt, e.killAt))
  {
    hide Attempt, Left, Account, Tells, First, Handled, Escalations, Guarded, Linger;
    if stop.Some? && s.now >= stop.value && kill.None? {
      LedgerAccounts(l, s, stop, kill);
      AttemptKeeps(s, Escalation);
      var (s1, f) := Attempt(s, Escalation);
      if f == Fine {
        KillKeeps(l, s, s1, stop);
        LingerKeeps(l, s1, stop, Some(s.now + l.killWait));
      } else {
        UnsentLeaves(l, s, s1, Escalation, f, Ask(s, Escalation));
      }
    } else {
      LingerKeeps(l, s, stop, kill);
    }
  }

  /** The least time so many sleeps take. */
  ghost function Rest(naps: nat, poll: real): real { naps as real * poll }

  /** At least a poll interval passed per sleep. */
  ghost predicate Paced(l: Limits, s: State, s': State) {
    s'.naps >= s.naps && s'.now >= s.now + Rest(s'.naps - s.naps, l.poll)
  }

  lemma RestAdds(poll: real, a: nat, b: nat)
    ensures Rest(a + b, poll) == Rest(a, poll) + Rest(b, poll) && Rest(1, poll) == poll && Rest(0, poll) == 0.0
  {}

  lemma CycleKeeps(l: Limits, s: State, stop: Option<real>, kill: Option<real>)
    requires Ledger(l, s, stop, kill)
    ensures var e := Cycle(l, s, stop, kill);
            && Left(l, e) && Suffix(s.script, e.s.script) && e.s.naps == s.naps && e.s.now == s.now
            && (e.Goes? ==> Ledger(l, e.s, e.shutdownAt, e.killAt) && Due(e.s, e.shutdownAt, e.killAt))
  {
    hide Ledger, Left, Account, Look, Drain, Escalate;
    LookLedger(l, s, stop, kill);
    var (s1, f) := Look(s);
    if f == Fine && !s1.child.Exited? {
      DrainKeeps(l, s1, stop, kill);
      var e := Drain(l, s1, stop, kill);
      if e.Goes? {
        EscalateKeeps(l, e.s, e.shutdownAt, kill);
        SuffixOfSuffix(s.script, s1.script, e.s.script);
        SuffixOfSuffix(s.script, e.s.script, Cycle(l, s, stop, kill).s.script);
      } else {
        SuffixOfSuffix(s.script, s1.script, e.s.script);
      }
    } else {
      LookLeaves(l, s1, f, stop, kill);
    }
  }

  lemma LookLeaves(l: Limits, s: State, f: Flow, stop: Option<real>, kill: Option<real>)
    requires Ledger(l, s, stop, kill)
    ensures Left(l, Throws(s)) && (s.script == [] ==> Left(l, Halts(s, None)))
    ensures s.child.Exited? ==>
      Left(l, Returns(s.(child := Reaped(s.child.code)), Returned(Why(stop, kill), Some(s.child.code), true, true)))
  {
    hide First, Handled, Escalations, Guarded, Fresh;
    LedgerAccounts(l, s, stop, kill);
  }

  lemma SleepKeeps(l: Limits, s: State, stop: Option<real>, kill: Option<real>)
    requires Ledger(l, s, stop, kill) && Due(s, stop, kill) && Timely(l, s.script)
    ensures var (s1, f) := Sleep(l, s);
            && Suffix(s.script, s1.script) && Paced(l, s, s1)
            && (f == Fine ==> Ledger(l, s1, stop, kill)) && (f == Stuck ==> Left(l, Halts(s1, None))) && (f !in {Fine, Stuck} ==> Left(l, Throws(s1)))
  {
    hide First, Handled, Escalations, Guarded, Fresh, Wake, Rest;
    RestAdds(l.poll, 0, 0);
    LedgerAccounts(l, s, stop, kill);
    if s.script != [] { WakeKeeps(s); }
  }

  lemma TimelySuffix(l: Limits, whole: seq<Moment>, rest: seq<Moment>)
    requires Timely(l, whole) && Suffix(whole, rest)
    ensures Timely(l, rest)
  {}

  lemma PacedThrough(l: Limits, a: State, b: State, c: State)
    requires Paced(l, a, b) && Paced(l, b, c)
    ensures Paced(l, a, c)
  {
    RestAdds(l.poll, b.naps - a.naps, c.naps - b.naps);
  }

  lemma PacedAtOnce(l: Limits, a: State, b: State)
    requires b.naps == a.naps && b.now == a.now
    ensures Paced(l, a, b)
  {}

  lemma {:induction false} WatchKeeps(l: Limits, s: State, stop: Option<real>, kill: Option<real>)
    requires Ledger(l, s, stop, kill) && Timely(l, s.script)
    ensures var e := Watch(l, s, stop, kill); Left(l, e) && Suffix(s.script, e.s.script) && Paced(l, s, e.s)
    decreases |s.script|
  {
    hide Ledger, Left, Cycle, Sleep, Due, Paced, Timely, Suffix;
    CycleKeeps(l, s, stop, kill);
    var e := Cycle(l, s, stop, kill);
    PacedAtOnce(l, s, e.s);
    if e.Goes? {
      TimelySuffix(l, s.script, e.s.script);
      SleepKeeps(l, e.s, e.shutdownAt, e.killAt);
      var (s1, f) := Sleep(l, e.s);
      PacedThrough(l, s, e.s, s1);
      SuffixOfSuffix(s.script, e.s.script, s1.script);
      if f == Fine {
        TimelySuffix(l, s.script, s1.script);
        WatchKeeps(l, s1, e.shutdownAt, e.killAt);
        var end := Watch(l, s1, e.shutdownAt, e.killAt);
        PacedThrough(l, s, s1, end.s);
        SuffixOfSuffix(s.script, s1.script, end.s.script);
      }
    }
  }

  // ------------------------------------------------------------ whole executions

  lemma EmptyAccounts(l: Limits, s: State)
    requires Queued(s) && Served(s) == [] && s.log == []
    ensures Account(l, s) && Guarded(s.log)
    ensures Sane(l) && s.child == Alive ==> Ledger(l, s, None, None)
  {
    Silence();
  }

  lemma DeniedAccounts(l: Limits, s: State)
    requires Queued(s) && Served(s) == [] && |s.log| == 1 && s.log[0].Denied?
    ensures Account(l, s)
  {
    Silence();
    assert s.log == [] + [s.log[0]];
    LogGrows([], s.log[0]);
  }

  lemma SpawnKeeps(s: State)
    requires Queued(s) && Served(s) == [] && s.log == [] && s.child == NotStarted
    ensures var (s1, f) := Spawn(s);
            && Queued(s1) && Served(s1) == [] && Suffix(s.script, s1.script) && s1.naps == s.naps && s1.now == s.now
            && s1.child in {NotStarted, Alive}
            && (s1.log == [] || (f in {Failed, Broken} && s1.log == [Denied(s.now)]))
            && (f == Fine ==> s1.child == Alive) && (f == Stuck ==> s1.script == [])
            && (f == Failed && s1.child == Alive ==> s1.log == [Denied(s.now)]) && f != Missing
  {
    hide Wake;
    if s.script != [] { WakeKeeps(s); LaterOfNone(s); }
  }

  lemma LaterOfNone(s: State)
    requires s.script != [] && s.child == NotStarted
    ensures Wake(s).child == NotStarted
  {}

  lemma BodyKeeps(l: Limits, s: State)
    requires Sane(l) && Timely(l, s.script) && Queued(s) && Served(s) == [] && s.log == [] && s.child == NotStarted
    ensures var e := Body(l, s); Left(l, e) && Suffix(s.script, e.s.script) && Paced(l, s, e.s)
  {
    hide Spawn, Ledger, Account, First, Handled, Escalations, Guarded, Fresh, Paced, Timely, Suffix, Watch;
    SpawnKeeps(s);
    var (s1, f) := Spawn(s);
    PacedAtOnce(l, s, s1);
    if s1.log == [] { EmptyAccounts(l, s1); } else { DeniedAccounts(l, s1); }
    if f == Fine {
      TimelySuffix(l, s.script, s1.script);
      WatchKeeps(l, s1, None, None);
      PacedThrough(l, s, s1, Watch(l, s1, None, None).s);
      SuffixOfSuffix(s.script, s1.script, Watch(l, s1, None, None).s.script);
    }
  }

  /** How the last look ends: with a result, an exception, or beyond the schedule. */
  lemma AbandonKeeps(l: Limits, s: State, reason: Reason, extra: real)
    requires Books(l, s, extra) && Started(s) && Explained(l, s, reason)
    requires reason in {SpawnGuardFailed, SignalAuthorityLost, ChildExitUnconfirmed, CleanupUnconfirmed}
    ensures var e := Abandon(s, reason);
            && Books(l, e.s, extra) && e.s.log == s.log && Suffix(s.script, e.s.script)
            && e.s.naps == s.naps && e.s.now == s.now
            && match e
               case Returns(s1, o) => o.Returned? && o.reason != Disabled && Truthful(s1, o) && Explained(l, s1, o.reason)
               case Throws(s1) => Started(s1)
               case Halts(s1, _) => s1.script == []
               case _ => false
  {
    hide First, Handled, Escalations, Look;
    LookKeeps(s);
  }

  /** How long the handler waits for the child it killed. */
  ghost function Waited(s: State): real {
    var (s1, f) := Attempt(s, Cleanup);
    if s.child != NotStarted && f == Fine && s1.script != [] then s1.script[0].waited else 0.0
  }

  lemma CleanUpKeeps(l: Limits, s: State)
    requires Books(l, s, 0.0) && !s.child.Reaped? && Timely(l, s.script) && Sane(l)
    ensures var (s1, o) := CleanUp(s);
            && Truthful(s1, o) && s1.naps == s.naps && (o == Running ==> s1.script == [])
            && (o.Returned? ==> o.reason != Disabled && Explained(l, s1, o.reason))
            && s1.now == s.now + Waited(s) && 0.0 <= Waited(s) <= l.killWait
            && Books(l, s1, Waited(s)) && Suffix(s.script, s1.script)
  {
    hide First, Handled, Escalations, Attempt, Books, Tells, Timely, Wait, Abandon, Suffix;
    SuffixItself(s.script);
    if s.child == NotStarted { return; }
    BooksQueue(l, s, 0.0);
    AttemptKeeps(s, Cleanup);
    var (s1, f) := Attempt(s, Cleanup);
    CleanupBooks(l, s, s1, f);
    TimelySuffix(l, s.script, s1.script);
    if f == Fine {
      WaitKeeps(l, s1);
      var (s2, g) := Wait(s1);
      SuffixOfSuffix(s.script, s1.script, s2.script);
      if g !in {Fine, Stuck, Broken} {
        AbandonKeeps(l, s2, CleanupUnconfirmed, Waited(s));
        SuffixOfSuffix(s.script, s2.script, CleanUp(s).0.script);
      }
    } else if f == Failed {
      AbandonKeeps(l, s1, CleanupUnconfirmed, 0.0);
      SuffixOfSuffix(s.script, s1.script, CleanUp(s).0.script);
    }
  }

  lemma BooksQueue(l: Limits, s: State, extra: real)
    requires Books(l, s, extra)
    ensures Queued(s)
  {}

  lemma CleanupBooks(l: Limits, s: State, s1: State, f: Flow)
    requires Books(l, s, 0.0) && Kept(s, s1) && Tells(s.log, s1.log, Cleanup, f, s.now)
    ensures Books(l, s1, 0.0)
  {
    hide First, Handled, Escalations, Tells;
    TellsReads(s.log, s1.log, Cleanup, f, s.now);
  }

  lemma WaitKeeps(l: Limits, s: State)
    requires Books(l, s, 0.0) && Started(s) && Timely(l, s.script)
    ensures var (s1, f) := Wait(s);
            && Suffix(s.script, s1.script) && s1.naps == s.naps
            && (s.script == [] ==> s1.now == s.now && Books(l, s1, 0.0))
            && (s.script != [] ==>
                  var waited := s.script[0].waited; s1.now == s.now + waited && 0.0 <= waited <= l.killWait && Books(l, s1, waited))
            && (f == Fine ==> s1.child.Reaped?) && (f != Fine ==> Started(s1)) && (f == Stuck ==> s1.script == [])
  {
    hide First, Handled, Escalations, Wake;
    if s.script != [] {
      assert s.script[0] in s.script;
      WakeKeeps(s);
    }
  }

  /** The `try` block with its call of `abandon`: it returned, threw, or is not over. */
  lemma SettleKeeps(l: Limits, s: State)
    requires Sane(l) && Timely(l, s.script) && Queued(s) && Served(s) == [] && s.log == [] && s.child == NotStarted
    ensures var e := Settle(Body(l, s));
            && !e.Forsakes? && !e.Goes? && Books(l, e.s, 0.0) && Suffix(s.script, e.s.script)
            && Paced(l, s, e.s) && e.s.now == Body(l, s).s.now
            && (e.Halts? ==> e.s.script == []) && (e.Throws? ==> !e.s.child.Reaped?)
            && (e.Returns? ==>
                  e.outcome.Returned? && e.outcome.reason != Disabled && Truthful(e.s, e.outcome) && Explained(l, e.s, e.outcome.reason))
  {
    hide First, Handled, Escalations, Books, Body, Abandon, Timely, Explained, Truthful, Suffix, Paced, Fresh,
      Guarded;
    BodyKeeps(l, s);
    var e := Body(l, s);
    if e.Forsakes? {
      AbandonKeeps(l, e.s, e.reason, 0.0);
      SuffixOfSuffix(s.script, e.s.script, Settle(e).s.script);
      PacedAtOnce(l, e.s, Settle(e).s);
      PacedThrough(l, s, e.s, Settle(e).s);
    }
  }

  ghost function Overtime(l: Limits, s: State): real {
    var e := Settle(Body(l, s));
    if e.Throws? then Waited(e.s) else 0.0
  }

  /** What `run_foreground` promises over every schedule: the books are in order within the
      loop's bound and the handler's wait, at least a poll interval passes per sleep, what
      the result says about the child and about its reason is so, and the call goes on only
      for as long as the schedule does. */
  lemma EveryRun(l: Limits, now: real, script: seq<Moment>)
    requires Sane(l) && Timely(l, script)
    ensures var s := Start(now, script);
            var (s1, o) := Attend(l, s);
            && Books(l, s1, Overtime(l, s)) && Truthful(s1, o) && Paced(l, s, s1) && Suffix(script, s1.script)
            && (o.Returned? ==> o.reason != Disabled && Explained(l, s1, o.reason))
            && (o == Running ==> s1.script == [])
            && s1.now == Body(l, s).s.now + Overtime(l, s) && 0.0 <= Overtime(l, s) <= l.killWait
  {
    hide First, Handled, Escalations, Books, Body, Settle, CleanUp, Timely, Explained, Suffix, Waited, Rest;
    var s := Start(now, script);
    SettleKeeps(l, s);
    var e := Settle(Body(l, s));
    if e.Throws? {
      TimelySuffix(l, script, e.s.script);
      CleanUpKeeps(l, e.s);
      SuffixOfSuffix(script, e.s.script, CleanUp(e.s).0.script);
    }
  }

  /** Once a TERM or INT is handled, a call that is still going on has slept a bounded number
      of times. */
  lemma ShutdownEnds(l: Limits, now: real, script: seq<Moment>, t: real)
    requires Sane(l) && Timely(l, script) && First(Attend(l, Start(now, script)).0.log, Stops) == Some(t)
    ensures Rest(Attend(l, Start(now, script)).0.naps, l.poll) <= t - now + l.grace + 2.0 * l.killWait + 2.0 * Nap(l)
  {
    hide First, Attend, Overtime;
    EveryRun(l, now, script);
  }
}
