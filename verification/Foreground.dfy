/**
 `run_foreground` as it runs, each part proved equal to its specification.
 */
module Foreground {
  import opened Schema
  import opened ForegroundModel
  import opened ForegroundRuns
  import opened ForegroundSchedule
  import opened ForegroundChild
  import opened ForegroundSilence

  class Supervisor {
    const limits: Limits
    var now: real
    var child: Child
    var pending: seq<Signal>
    var handlers: map<Signal, Handler>
    /** What the environment is still going to do. */
    var script: seq<Moment>
    ghost var log: seq<Deed>
    ghost var accepted: seq<Signal>
    ghost var naps: nat

    constructor (limits: Limits, now: real, handlers: map<Signal, Handler>, script: seq<Moment>)
      ensures this.limits == limits && this.handlers == handlers && Is() == Start(now, script)
    {
      this.limits, this.now, this.handlers, this.script := limits, now, handlers, script;
      child, pending, log, accepted, naps := NotStarted, [], [], [], 0;
    }

    /** Everything but the handlers. */
    ghost function Is(): State
      reads this`now, this`child, this`pending, this`script, this`log, this`accepted, this`naps
    {
      State(now, child, pending, script, log, accepted, naps)
    }

    /** `on_signal`, for every signal that arrives; beyond the capacity they are dropped. */
    method OnSignals(arrivals: seq<Signal>)
      modifies this`pending, this`accepted
      ensures var taken := arrivals[..Room(|old(pending)|, |arrivals|)];
        Is() == old(Is()).(pending := old(pending) + taken, accepted := old(accepted) + taken)
    {
      for i := 0 to |arrivals|
        invariant pending == old(pending) + arrivals[..Room(|old(pending)|, i)]
        invariant accepted == old(accepted) + arrivals[..Room(|old(pending)|, i)]
      {
        if |pending| < CAPACITY {
          pending := pending + [arrivals[i]];
          accepted := accepted + [arrivals[i]];
        }
      }
    }

    /** The environment's turn. */
    method Step() returns (m: Moment)
      requires script != []
      modifies this`script, this`child, this`pending, this`accepted
      ensures m == old(script)[0] && Is() == Wake(old(Is()))
    {
      m := script[0];
      script := script[1..];
      child := Later(child, m.turn);
      OnSignals(m.arrivals);
    }

    /** `exited`: a look that does not reap. `kill`: how a signal sent right after it goes. */
    method Check() returns (f: Flow, gone: bool, kill: Trouble)
      modifies this`script, this`child, this`pending, this`accepted
      ensures (Is(), f) == Look(old(Is()))
      ensures f == Fine ==> if gone then child.Exited? else child.Alive?
      ensures f != Stuck ==> old(script) != [] && kill == old(script)[0].kill
    {
      f, gone, kill := Stuck, false, Smooth;
      if script == [] { return; }
      var m := Step();
      kill := m.kill;
      match m.trouble {
        case Errs => f := Failed;
        case Breaks => f := Broken;
        case Smooth => f, gone := if child.Alive? || child.Exited? then Fine else Missing, child.Exited?;
      }
    }

    /** `os.kill`. The process id is the child's own as long as nobody has reaped it. */
    method Kill(cause: Cause, kill: Trouble) returns (f: Flow)
      requires child.Alive?
      modifies this`log
      ensures match kill
        case Smooth => f == Fine && log == old(log) + [Send(cause, true, now)]
        case Errs => f == Failed && log == old(log) + [Erred(now)]
        case Breaks => f == Broken && log == old(log)
    {
      match kill {
        case Smooth => f, log := Fine, log + [Send(cause, true, now)];
        case Errs => f, log := Failed, log + [Erred(now)];
        case Breaks => f := Broken;
      }
    }

    /** `if not exited(): os.kill(...)`. */
    method Hit(cause: Cause) returns (f: Flow)
      modifies this`script, this`child, this`pending, this`accepted, this`log
      ensures (Is(), f) == Strike(old(Is()), cause)
    {
      var gone, kill;
      f, gone, kill := Check();
      match f {
        case Fine =>
          if gone { log := log + [Send(cause, false, now)]; } else { f := Kill(cause, kill); }
        case Failed => log := log + [Erred(now)];
        case Missing => f, log := Failed, log + [Erred(now)];
        case _ =>
      }
    }

    /** The end of a `with guard()` block whose body ended with `f`. */
    method Exit(guard: Guard, f: Flow) returns (g: Flow)
      modifies this`log
      ensures (Is(), g) == Leave(guard, old(Is()), f)
    {
      g := f;
      if f != Stuck {
        match guard {
          case Slips => g, log := Failed, log + [Denied(now)];
          case BreaksOut => g, log := Broken, log + [Denied(now)];
          case _ =>
        }
      }
    }

    /** `send`. */
    method Forward(cause: Cause) returns (f: Flow)
      modifies this`script, this`child, this`pending, this`accepted, this`log
      ensures (Is(), f) == Attempt(old(Is()), cause)
    {
      if script == [] { return Stuck; }
      var m := Step();
      match m.guard {
        case Refuses => f, log := Failed, log + [Denied(now)];
        case BreaksIn => f, log := Broken, log + [Denied(now)];
        case _ =>
          f := Hit(cause);
          f := Exit(m.guard, f);
      }
    }

    /** `child.wait` on a child that has exited. */
    method Reap() returns (code: int)
      requires child.Exited?
      modifies this`child
      ensures child == Reaped(code) && old(child) == Exited(code)
    {
      code := child.code;
      child := Reaped(code);
    }

    /** How a method that stands for a stretch of the `try` block ended. */
    ghost predicate Ended(e: End, f: Flow, o: Option<Outcome>)
      reads this`now, this`child, this`pending, this`script, this`log, this`accepted, this`naps
    {
      && Is() == e.s
      && match e
         case Returns(_, outcome) => f == Fine && o == Some(outcome)
         case Throws(_) => f in {Failed, Missing, Broken} && o.None?
         case Halts(_, _) => f == Stuck && o.None?
         case Goes(_, _, _) => f == Fine && o.None?
         case Forsakes(_, _) => false
    }

    method Abandon(reason: Reason) returns (f: Flow, o: Option<Outcome>)
      modifies this`script, this`child, this`pending, this`accepted
      ensures Ended(ForegroundModel.Abandon(old(Is()), reason), f, o)
    {
      o := None;
      var gone, kill;
      f, gone, kill := Check();
      match f {
        case Fine =>
          if gone {
            var code := Reap();
            o := Some(Returned(reason, Some(code), true, true));
          } else {
            o := Some(Returned(reason, None, true, false));
          }
        case Missing => f, o := Fine, Some(Returned(ChildWaitOwnershipLost, None, true, false));
        case _ =>
      }
    }

    /** `Popen` under the guard. */
    method Launch() returns (f: Flow)
      modifies this`script, this`child, this`pending, this`accepted, this`log
      ensures (Is(), f) == Spawn(old(Is()))
    {
      if script == [] { return Stuck; }
      var m := Step();
      match m.guard {
        case Refuses => f, log := Failed, log + [Denied(now)];
        case BreaksIn => f, log := Broken, log + [Denied(now)];
        case _ =>
          match m.trouble {
            case Smooth => f, child := Fine, Alive;
            case Errs => f := Failed;
            case Breaks => f := Broken;
          }
          f := Exit(m.guard, f);
      }
    }

    /** `time.sleep`. */
    method Nap() returns (f: Flow)
      modifies this`script, this`child, this`pending, this`accepted, this`now, this`naps
      ensures (Is(), f) == Sleep(limits, old(Is()))
    {
      if script == [] { return Stuck; }
      var m := Step();
      if !m.trouble.Smooth? { return Broken; }
      now, naps, f := now + limits.poll + m.late, naps + 1, Fine;
    }

    /** `child.wait` with its timeout. */
    method Join() returns (f: Flow)
      modifies this`script, this`child, this`pending, this`accepted, this`now
      ensures (Is(), f) == Wait(old(Is()))
    {
      if script == [] { return Stuck; }
      var m := Step();
      now := now + m.waited;
      match m.trouble {
        case Smooth =>
          f := Failed;
          if child.Exited? {
            var code := Reap();
            f := Fine;
          }
        case Errs => f := Failed;
        case Breaks => f := Broken;
      }
    }

    /** The drain of the queue. */
    method Relays(stop: Option<real>, ghost kill: Option<real>) returns (f: Flow, o: Option<Outcome>, shutdownAt: Option<real>)
      modifies this`script, this`child, this`pending, this`accepted, this`log
      ensures var e := Settle(Drain(limits, old(Is()), stop, kill));
        Ended(e, f, o) && (e.Goes? ==> e.shutdownAt == shutdownAt && e.killAt == kill)
    {
      hide Attempt, Look, ForegroundModel.Abandon;
      f, o, shutdownAt := Fine, None, stop;
      while pending != []
        invariant f == Fine && o == None
        invariant Drain(limits, Is(), shutdownAt, kill) == Drain(limits, old(Is()), stop, kill)
        decreases |script|
      {
        var number := pending[0];
        pending := pending[1..];
        f := Forward(Relay(number));
        if f == Failed {
          f, o := Abandon(SignalAuthorityLost);
          return;
        }
        if f != Fine { return; }
        if number in {Term, Int} && shutdownAt.None? { shutdownAt := Some(now + limits.grace); }
      }
    }

    /** Escalation, and giving up on a child that survives it. */
    method Press(shutdownAt: Option<real>, kill: Option<real>) returns (f: Flow, o: Option<Outcome>, killAt: Option<real>)
      modifies this`script, this`child, this`pending, this`accepted, this`log
      ensures var e := Settle(Escalate(limits, old(Is()), shutdownAt, kill));
        Ended(e, f, o) && (e.Goes? ==> e.shutdownAt == shutdownAt && e.killAt == killAt)
    {
      f, o, killAt := Fine, None, kill;
      if shutdownAt.Some? && now >= shutdownAt.value && killAt.None? {
        f := Forward(Escalation);
        if f == Failed {
          f, o := Abandon(SignalAuthorityLost);
          return;
        }
        if f != Fine { return; }
        killAt := Some(now + limits.killWait);
      }
      if killAt.Some? && now >= killAt.value { f, o := Abandon(ChildExitUnconfirmed); }
    }

    /** One turn of the loop up to its sleep. */
    method Round(stop: Option<real>, kill: Option<real>)
      returns (f: Flow, o: Option<Outcome>, shutdownAt: Option<real>, killAt: Option<real>)
      modifies this`script, this`child, this`pending, this`accepted, this`log
      ensures var e := Settle(Cycle(limits, old(Is()), stop, kill));
        Ended(e, f, o) && (e.Goes? ==> e.shutdownAt == shutdownAt && e.killAt == killAt)
    {
      hide Look, Drain, Escalate, ForegroundModel.Abandon;
      o, shutdownAt, killAt := None, stop, kill;
      var gone, how;
      f, gone, how := Check();
      if f != Fine { return; }
      if gone {
        var code := Reap();
        o := Some(Returned(Why(stop, kill), Some(code), true, true));
        return;
      }
      f, o, shutdownAt := Relays(stop, kill);
      if f != Fine || o.Some? { return; }
      f, o, killAt := Press(shutdownAt, kill);
    }

    /** The `while True` loop. */
    method Loop() returns (f: Flow, o: Option<Outcome>)
      modifies this`script, this`child, this`pending, this`accepted, this`log, this`now, this`naps
      ensures Ended(Settle(Watch(limits, old(Is()), None, None)), f, o)
    {
      var shutdownAt, killAt := None, None;
      while true
        invariant Watch(limits, Is(), shutdownAt, killAt) == Watch(limits, old(Is()), None, None)
        decreases |script|
      {
        f, o, shutdownAt, killAt := Round(shutdownAt, killAt);
        if f != Fine || o.Some? { return; }
        f := Nap();
        if f != Fine { return; }
      }
    }

    /** The `try` block. */
    method Try() returns (f: Flow, o: Option<Outcome>)
      modifies this`script, this`child, this`pending, this`accepted, this`log, this`now, this`naps
      ensures Ended(Settle(Body(limits, old(Is()))), f, o)
    {
      o := None;
      f := Launch();
      match f {
        case Fine => f, o := Loop();
        case Failed =>
          if child == NotStarted {
            f, o := Fine, Some(Returned(SpawnRefused, None, false, false));
          } else {
            f, o := Abandon(SpawnGuardFailed);
          }
        case _ =>
      }
    }

    /** The handler of everything that escaped the `try`. */
    method Rescue() returns (o: Outcome)
      modifies this`script, this`child, this`pending, this`accepted, this`log, this`now
      ensures (Is(), o) == CleanUp(old(Is()))
    {
      if child == NotStarted { return Escaped; }
      var f := Forward(Cleanup);
      if f == Fine {
        f := Join();
        if f == Fine { return Returned(SupervisorFailed, if child.Reaped? then Some(child.code) else None, true, true); }
      }
      if f == Stuck { return Running; }
      if f == Broken { return Escaped; }
      var result;
      f, result := Abandon(CleanupUnconfirmed);
      o := if result.Some? then result.value else if f == Stuck then Running else Escaped;
    }

    /** The `try` block and its handler. */
    method Serve() returns (o: Outcome)
      modifies this`script, this`child, this`pending, this`accepted, this`log, this`now, this`naps
      ensures (Is(), o) == Attend(limits, old(Is()))
    {
      var f, result := Try();
      if result.Some? {
        o := result.value;
      } else if f == Stuck {
        o := Running;
      } else {
        o := Rescue();
      }
    }

    /** `run_foreground`. What it did and what it returned is what its specification makes of
        the schedule, and so has every property proved of that; the handlers are restored on
        every exit, whether by a result or by an exception. */
    method Run(enabled: bool) returns (o: Outcome)
      requires Is() == Start(now, script) && Sane(limits) && Timely(limits, script)
      modifies this
      ensures o != Running ==> handlers == old(handlers)
      ensures o == Running ==> handlers == FORWARDING && script == []
      ensures !enabled ==> o == Returned(Disabled, None, false, false) && Is() == old(Is())
      ensures enabled ==>
        && (Is(), o) == Attend(limits, old(Is()))
        && Books(limits, Is(), Overtime(limits, old(Is()))) && Paced(limits, old(Is()), Is())
        && Truthful(Is(), o) && (o.Returned? ==> o.reason != Disabled && Explained(limits, Is(), o.reason))
        && (SignalAfterRefusal(log) <==> SecondChance(limits, old(now), old(script)))
        && (o.Returned? && o.reaped ==> EndsWith(old(script), o.code))
        && (old(script) != [] ==> (o == Returned(SpawnRefused, None, false, false) <==> Unspawnable(old(script)[0])))
        && (Calm(old(script)) ==> !SignalAfterRefusal(log) && o != Escaped && Books(limits, Is(), 0.0))
    {
      hide Attend, Books, Paced, Truthful, Explained, SignalAfterRefusal, SecondChance, Calm, Overtime, Timely, EndsWith, Unspawnable;
      o := Returned(Disabled, None, false, false);
      if enabled {
        EveryRun(limits, now, script);
        SignalAfterRefusalExactly(limits, now, script);
        ChildTold(limits, now, script);
        CodeTold(Attend(limits, Is()).0, Attend(limits, Is()).1);
        if script != [] { SpawnRefusedExactly(limits, now, script); }
        if Calm(script) { CalmRuns(limits, now, script); }
        var previous := handlers;
        handlers := FORWARDING;
        o := Serve();
        if o != Running { handlers := previous; }
      }
    }
  }

  /** Runs of the supervisor in which a guard fails and a kill follows. */
  method RefusedThenKilled(limits: Limits, handlers: map<Signal, Handler>, broken: bool) returns (s: Supervisor, o: Outcome)
    requires Sane(limits)
    ensures (s.Is(), o) == Attend(limits, Start(0.0, if broken then BROKEN_SCHEDULE else REFUSED_SCHEDULE))
    ensures SignalAfterRefusal(s.log)
  {
    hide Attend, Books, Paced, Truthful, Explained, SignalAfterRefusal, SecondChance, Calm, Overtime, EndsWith, Unspawnable;
    RefusedRun(limits);
    s := new Supervisor(limits, 0.0, handlers, if broken then BROKEN_SCHEDULE else REFUSED_SCHEDULE);
    o := s.Run(true);
  }
}
