/**
 The foreground supervisor as a function of its schedule: one direct child, signals
 forwarded under a guard, one escalation to SIGKILL.

 The environment is a finite script of moments, one for every action it can interfere
 with; a run that outlasts its script is still running, so a claim over all scripts is
 a claim over every prefix of every run. Guards, looks and signals take no time.
 */
module ForegroundModel {
  import opened Schema

  /** The signals the supervisor handles. */
  datatype Signal = Term | Int | Hup

  datatype Handler = Original(id: nat) | Forwarder

  datatype Child = NotStarted | Alive | Exited(code: int) | Reaped(code: int)
    | Lost                    // somebody else waited for it: its process id may be anyone's

  /** What the child does meanwhile. */
  datatype Turn = Stays | Ends(code: int) | Vanishes

  /** An action that works, raises an `Exception`, or raises anything else. */
  datatype Trouble = Smooth | Errs | Breaks

  /** A guard that holds, refuses entry, or fails on the way out; the last two raise
      something that is not an `Exception`, before or after the guarded body. */
  datatype Guard = Holds | Refuses | Slips | BreaksIn | BreaksOut

  /** `trouble`: how the action itself goes (spawn, look, sleep or wait). `kill`: how
      `os.kill` goes. `late`: how much longer than asked a sleep takes. `waited`: how long
      the last wait for the child lasts. */
  datatype Moment = Moment(
    arrivals: seq<Signal>, turn: Turn, guard: Guard, trouble: Trouble, kill: Trouble, late: real, waited: real)

  datatype Limits = Limits(grace: real, killWait: real, poll: real, slack: real)

  predicate Sane(l: Limits) { l.grace > 0.0 && l.killWait > 0.0 && 0.0 < l.poll <= 1.0 && l.slack >= 0.0 }

  /** The longest a sleep takes. */
  function Nap(l: Limits): real { l.poll + l.slack }

  predicate Timely(l: Limits, script: seq<Moment>) {
    forall m | m in script :: 0.0 <= m.late <= l.slack && 0.0 <= m.waited <= l.killWait
  }

  datatype Reason =
    | Disabled | SpawnRefused | SpawnGuardFailed | Finished | Signalled | ShutdownEscalated
    | SignalAuthorityLost | ChildExitUnconfirmed | SupervisorFailed | CleanupUnconfirmed | ChildWaitOwnershipLost

  datatype Outcome = Returned(reason: Reason, code: Option<int>, started: bool, reaped: bool) | Escaped | Running

  /** How an action ended: normally, with an `Exception`, with the `ChildProcessError` of a
      look at a lost child, with anything else, or beyond the script. */
  datatype Flow = Fine | Failed | Missing | Broken | Stuck

  /** Why a signal is sent. */
  datatype Cause = Relay(number: Signal) | Escalation | Cleanup

  /** What the supervisor did and met: a signal (`sent` is false when the child had already
      exited), a guard that refused or failed, an `Exception` from inside a guard. */
  datatype Deed = Send(cause: Cause, sent: bool, at: real) | Denied(at: real) | Erred(at: real)

  const CAPACITY := 32

  const FORWARDING: map<Signal, Handler> := map[Term := Forwarder, Int := Forwarder, Hup := Forwarder]

  /** `accepted`: every signal that was queued. `naps`: the sleeps so far. */
  datatype State = State(
    now: real, child: Child, pending: seq<Signal>, script: seq<Moment>, log: seq<Deed>, accepted: seq<Signal>, naps: nat)

  function Start(now: real, script: seq<Moment>): State { State(now, NotStarted, [], script, [], [], 0) }

  /** How a stretch of the `try` block ended: with a `return`, on its way into `abandon`, with
      an exception, beyond the script (`asks`: where it would have asked the guard for a
      signal), or not at all. */
  datatype End =
    | Returns(s: State, outcome: Outcome)
    | Forsakes(s: State, reason: Reason)
    | Throws(s: State)
    | Halts(s: State, asks: Option<Cause>)
    | Goes(s: State, shutdownAt: Option<real>, killAt: Option<real>)

  function Later(child: Child, turn: Turn): Child {
    match (child, turn)
    case (Alive, Ends(code)) => Exited(code)
    case (Alive, Vanishes) => Lost
    case (Exited(_), Vanishes) => Lost
    case _ => child
  }

  /** How many of `arrivals` more signals fit into the queue. */
  function Room(queued: nat, arrivals: nat): (r: nat)
    ensures r <= arrivals
  {
    if queued >= CAPACITY then 0 else if arrivals <= CAPACITY - queued then arrivals else CAPACITY - queued
  }

  /** The environment's turn; `on_signal` drops what does not fit. */
  function Wake(s: State): State
    requires s.script != []
  {
    var m := s.script[0];
    var taken := m.arrivals[..Room(|s.pending|, |m.arrivals|)];
    s.(script := s.script[1..], child := Later(s.child, m.turn), pending := s.pending + taken, accepted := s.accepted + taken)
  }

  function Told(s: State, d: Deed): State { s.(log := s.log + [d]) }

  // --------------------------------------------------------------- single actions

  /** `exited`: a look that does not reap, and raises when there is no child to look at. */
  function Look(s: State): (r: (State, Flow))
    ensures r.1 == Stuck ==> r.0.script == []
    ensures |r.0.script| <= |s.script| && (r.1 != Stuck ==> |r.0.script| < |s.script|)
  {
    if s.script == [] then (s, Stuck)
    else
      var s1 := Wake(s);
      match s.script[0].trouble
      case Errs => (s1, Failed)
      case Breaks => (s1, Broken)
      case Smooth => (s1, if s1.child.Alive? || s1.child.Exited? then Fine else Missing)
  }

  /** The guarded body of `send`. */
  function Strike(s: State, cause: Cause): (r: (State, Flow))
    ensures r.1 == Stuck ==> r.0.script == []
    ensures |r.0.script| <= |s.script| && (r.1 != Stuck ==> |r.0.script| < |s.script|)
    ensures r.1 != Missing
  {
    var (s1, f) := Look(s);
    match f
    case Stuck => (s1, Stuck)
    case Broken => (s1, Broken)
    case Fine =>
      if !s1.child.Alive? then (Told(s1, Send(cause, false, s1.now)), Fine)
      else
        (match s.script[0].kill
         case Smooth => (Told(s1, Send(cause, true, s1.now)), Fine)
         case Errs => (Told(s1, Erred(s1.now)), Failed)
         case Breaks => (s1, Broken))
    case _ => (Told(s1, Erred(s1.now)), Failed)
  }

  /** The end of a `with` block: what the guard raises on the way out replaces whatever
      its body did. */
  function Leave(guard: Guard, s: State, f: Flow): (r: (State, Flow))
    ensures r.0.script == s.script && (r.1 == Stuck <==> f == Stuck) && (f != Missing ==> r.1 != Missing)
  {
    if f == Stuck then (s, f)
    else
      match guard
      case Slips => (Told(s, Denied(s.now)), Failed)
      case BreaksOut => (Told(s, Denied(s.now)), Broken)
      case _ => (s, f)
  }

  /** `send`: under the guard, and only to a child that has not exited. The guard takes one
      moment, the look at the child the next. */
  function Attempt(s: State, cause: Cause): (r: (State, Flow))
    ensures r.1 == Stuck ==> r.0.script == []
    ensures |r.0.script| <= |s.script| && (r.1 != Stuck ==> |r.0.script| < |s.script|)
    ensures r.1 != Missing
  {
    if s.script == [] then (s, Stuck)
    else
      var guard, s1 := s.script[0].guard, Wake(s);
      match guard
      case Refuses => (Told(s1, Denied(s1.now)), Failed)
      case BreaksIn => (Told(s1, Denied(s1.now)), Broken)
      case _ => var (s2, f) := Strike(s1, cause); Leave(guard, s2, f)
  }

  /** `Popen` under the guard. */
  function Spawn(s: State): (State, Flow) {
    if s.script == [] then (s, Stuck)
    else
      var m, s1 := s.script[0], Wake(s);
      match m.guard
      case Refuses => (Told(s1, Denied(s1.now)), Failed)
      case BreaksIn => (Told(s1, Denied(s1.now)), Broken)
      case _ =>
        match m.trouble
        case Smooth => Leave(m.guard, s1.(child := Alive), Fine)
        case Errs => Leave(m.guard, s1, Failed)
        case Breaks => Leave(m.guard, s1, Broken)
  }

  function Sleep(l: Limits, s: State): (r: (State, Flow))
    ensures r.1 == Stuck ==> r.0.script == []
    ensures |r.0.script| <= |s.script| && (r.1 != Stuck ==> |r.0.script| < |s.script|)
  {
    if s.script == [] then (s, Stuck)
    else if !s.script[0].trouble.Smooth? then (Wake(s), Broken)
    else (Wake(s).(now := s.now + l.poll + s.script[0].late, naps := s.naps + 1), Fine)
  }

  /** `child.wait` with its timeout. */
  function Wait(s: State): (State, Flow) {
    if s.script == [] then (s, Stuck)
    else
      var m, s1 := s.script[0], Wake(s).(now := s.now + s.script[0].waited);
      match m.trouble
      case Smooth => if s1.child.Exited? then (s1.(child := Reaped(s1.child.code)), Fine) else (s1, Failed)
      case Errs => (s1, Failed)
      case Breaks => (s1, Broken)
  }

  /** `abandon`: one more look, and then the child is left to its owner. Only the
      `ChildProcessError` of that look is caught. */
  function Abandon(s: State, reason: Reason): (e: End)
    ensures !e.Goes? && !e.Forsakes?
  {
    var (s1, f) := Look(s);
    match f
    case Fine =>
      if s1.child.Exited? then Returns(s1.(child := Reaped(s1.child.code)), Returned(reason, Some(s1.child.code), true, true))
      else Returns(s1, Returned(reason, None, true, false))
    case Missing => Returns(s1, Returned(ChildWaitOwnershipLost, None, true, false))
    case Stuck => Halts(s1, None)
    case _ => Throws(s1)
  }

  // -------------------------------------------------------------------- the loop

  /** The reason the loop has set. */
  function Why(shutdownAt: Option<real>, killAt: Option<real>): Reason {
    if killAt.Some? then ShutdownEscalated else if shutdownAt.Some? then Signalled else Finished
  }

  /** Whether an attempt has yet to ask its guard. */
  function Ask(s: State, cause: Cause): Option<Cause> { if s.script == [] then Some(cause) else None }

  /** What the loop makes of an attempt that did not go well. */
  function Unsent(s: State, f: Flow, asks: Option<Cause>): End {
    match f
    case Stuck => Halts(s, asks)
    case Broken => Throws(s)
    case _ => Forsakes(s, SignalAuthorityLost)
  }

  /** The first TERM or INT starts the grace period. */
  function Deadline(l: Limits, number: Signal, stop: Option<real>, now: real): Option<real> {
    if number in {Term, Int} && stop.None? then Some(now + l.grace) else stop
  }

  function Drain(l: Limits, s: State, stop: Option<real>, kill: Option<real>): (e: End)
    ensures |e.s.script| <= |s.script|
    decreases |s.script|
  {
    if s.pending == [] then Goes(s, stop, kill)
    else
      var (s1, f) := Attempt(s.(pending := s.pending[1..]), Relay(s.pending[0]));
      if f == Fine then Drain(l, s1, Deadline(l, s.pending[0], stop, s1.now), kill)
      else Unsent(s1, f, Ask(s, Relay(s.pending[0])))
  }

  /** Giving up on a child that survived the kill. */
  function Linger(s: State, stop: Option<real>, kill: Option<real>): End {
    if kill.Some? && s.now >= kill.value then Forsakes(s, ChildExitUnconfirmed) else Goes(s, stop, kill)
  }

  function Escalate(l: Limits, s: State, stop: Option<real>, kill: Option<real>): (e: End)
    ensures |e.s.script| <= |s.script|
  {
    if stop.Some? && s.now >= stop.value && kill.None? then
      var (s1, f) := Attempt(s, Escalation);
      if f == Fine then Linger(s1, stop, Some(s.now + l.killWait)) else Unsent(s1, f, Ask(s, Escalation))
    else Linger(s, stop, kill)
  }

  /** One turn of the loop up to its sleep. */
  function Cycle(l: Limits, s: State, stop: Option<real>, kill: Option<real>): (e: End)
    ensures |e.s.script| <= |s.script|
    ensures e.Goes? ==> |e.s.script| < |s.script|
  {
    var (s1, f) := Look(s);
    match f
    case Stuck => Halts(s1, None)
    case Fine =>
      if s1.child.Exited? then
        Returns(s1.(child := Reaped(s1.child.code)), Returned(Why(stop, kill), Some(s1.child.code), true, true))
      else
        var e := Drain(l, s1, stop, kill);
        if e.Goes? then Escalate(l, e.s, e.shutdownAt, kill) else e
    case _ => Throws(s1)
  }

  /** The `while True` loop. */
  function Watch(l: Limits, s: State, stop: Option<real>, kill: Option<real>): (e: End)
    ensures !e.Goes?
    decreases |s.script|
  {
    var e := Cycle(l, s, stop, kill);
    if !e.Goes? then e
    else
      var (s1, f) := Sleep(l, e.s);
      match f
      case Fine => Watch(l, s1, e.shutdownAt, e.killAt)
      case Stuck => Halts(s1, None)
      case _ => Throws(s1)
  }

  /** The `try` block, up to a call of `abandon`. */
  function Body(l: Limits, s: State): (e: End)
    ensures !e.Goes?
  {
    var (s1, f) := Spawn(s);
    match f
    case Fine => Watch(l, s1, None, None)
    case Stuck => Halts(s1, None)
    case Broken => Throws(s1)
    case _ =>
      if s1.child == NotStarted then Returns(s1, Returned(SpawnRefused, None, false, false))
      else Forsakes(s1, SpawnGuardFailed)
  }

  /** `return abandon(...)`. */
  function Settle(e: End): End { if e.Forsakes? then Abandon(e.s, e.reason) else e }

  /** `return abandon("cleanup_unconfirmed")`, where nothing catches an exception. */
  function Resign(s: State): (State, Outcome) {
    var e := Abandon(s, CleanupUnconfirmed);
    match e
    case Returns(s1, outcome) => (s1, outcome)
    case Halts(s1, _) => (s1, Running)
    case _ => (e.s, Escaped)
  }

  /** The handler of everything that escaped the `try`. */
  function CleanUp(s: State): (State, Outcome) {
    if s.child == NotStarted then (s, Escaped)
    else
      var (s1, f) := Attempt(s, Cleanup);
      match f
      case Stuck => (s1, Running)
      case Broken => (s1, Escaped)
      case Fine =>
        var (s2, g) := Wait(s1);
        (match g
         case Fine => (s2, Returned(SupervisorFailed, if s2.child.Reaped? then Some(s2.child.code) else None, true, true))
         case Stuck => (s2, Running)
         case Broken => (s2, Escaped)
         case _ => Resign(s2))
      case _ => Resign(s1)
  }

  /** The `try` block and its handler. */
  function Attend(l: Limits, s: State): (State, Outcome) {
    var e := Settle(Body(l, s));
    match e
    case Returns(s1, outcome) => (s1, outcome)
    case Throws(s1) => CleanUp(s1)
    case _ => (e.s, Running)
  }
}
