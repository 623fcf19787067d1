/**
 The lifecycle authority and the deployment controller on one store: a registration looks
 into the lifecycle table, an approval into the registration table, each in its own
 transaction.
 */
module Authorities {
  import opened Schema
  import L = LifecycleModel
  import LM = LifecycleMachine
  import LA = LifecycleAdmission
  import C = ControllerModel
  import CM = ControllerMachine
  import CF = ControllerFrames

  /** What both machines do to the shared documents; `life.db.registrations` is the lifecycle's
      view of the registration table. */
  datatype World = World(life: LM.World, control: CM.World)

  datatype Label = ByLifecycle(life: LM.Label) | ByController(control: CM.Label)

  /** The registration transaction finds the lifecycle table as it is. */
  ghost function Looked(w: World, l: CM.Label): CM.Label {
    if l.Register? then l.(elsewhere := l.id in w.life.db.instances) else l
  }

  ghost function Step(w: World, l: Label): World {
    match l
    case ByLifecycle(life) => if life.Enroll? then w else w.(life := LM.Step(w.life, life))
    case ByController(control) =>
      var next := CM.Step(w.control, Looked(w, control));
      World(w.life.(db := w.life.db.(registrations := next.db.registrations.Keys)), next)
  }

  ghost function Run(w: World, labels: seq<Label>): World
    decreases |labels|
  {
    if labels == [] then w else Step(Run(w, labels[..|labels| - 1]), labels[|labels| - 1])
  }

  ghost predicate Initial(w: World) { LM.Initial(w.life) && CM.Initial(w.control) }

  // ----------------------------------------------------------- one registration table

  ghost predicate Shared(w: World) {
    w.life.db.registrations == w.control.db.registrations.Keys && w.control.db.instances.Keys == w.control.db.registrations.Keys
  }

  /** An accepted registration: the lifecycle authority has no such instance, in any state,
      and the controller has it from now on. */
  lemma RegisteredIsNowhereElse(db: C.Db, id: C.InstanceId, registration: C.Registration, baseline: C.Spec, seen: C.Runtime,
                                qualified: bool, sound: bool, elsewhere: bool)
    requires C.RegisterTx(db, id, registration, baseline, seen, qualified, sound, elsewhere).Done?
    ensures !elsewhere && id !in db.instances && qualified && sound && seen.spec == Digest(baseline)
    ensures var db' := C.RegisterTx(db, id, registration, baseline, seen, qualified, sound, elsewhere).docs;
            && db'.registrations == db.registrations[id := registration]
            && db'.instances == db.instances[id := C.Instance(0, 0, Digest(baseline), seen, None, C.Ready)]
  {}

  /** Either the step is a registration of an instance the lifecycle authority does not have,
      or it leaves the table alone. */
  lemma Enrolls(w: World, l: CM.Label)
    requires Shared(w)
    ensures var keys, keys' := w.control.db.registrations.Keys, CM.Step(w.control, Looked(w, l)).db.registrations.Keys;
            && CM.Step(w.control, Looked(w, l)).db.instances.Keys == keys'
            && (keys' == keys || (l.Register? && l.id !in w.life.db.instances && keys' == keys + {l.id}))
  {
    hide C.RegisterTx;
    var seen := Looked(w, l);
    if l.Register? {
      if l.permitted && l.id in w.control.runtimes
         && C.RegisterTx(w.control.db, l.id, l.registration, l.baseline, w.control.runtimes[l.id], l.qualified, l.sound, seen.elsewhere).Done? {
        RegisteredIsNowhereElse(w.control.db, l.id, l.registration, l.baseline, w.control.runtimes[l.id], l.qualified, l.sound, seen.elsewhere);
      }
    } else {
      CF.RegistryStays(w.control, l);
    }
  }

  /** What a step is for the lifecycle authority: one of its own, an enrolment, or nothing. */
  ghost function LifeOf(w: World, l: Label): seq<LM.Label> {
    match l
    case ByLifecycle(life) => if life.Enroll? then [] else [life]
    case ByController(control) =>
      if CM.Step(w.control, Looked(w, control)).db.registrations.Keys == w.control.db.registrations.Keys then []
      else if control.Register? then [LM.Enroll(control.id)] else []
  }

  lemma StepProjects(w: World, l: Label)
    requires Shared(w)
    ensures Step(w, l).life == LM.Run(w.life, LifeOf(w, l)) && Shared(Step(w, l))
  {
    hide LM.Step, CM.Step;
    var labels := LifeOf(w, l);
    assert labels == [] ==> LM.Run(w.life, labels) == w.life;
    if labels != [] { OneStep(w.life, labels[0]); }
    match l
    case ByController(control) =>
      Enrolls(w, control);
      if labels != [] { Enrolled(w.life, control.id); }
    case ByLifecycle(life) =>
      if !life.Enroll? { LA.StepLeavesRegistry(w.life, life); }
  }

  lemma OneStep(w: LM.World, l: LM.Label)
    ensures LM.Run(w, [l]) == LM.Step(w, l)
  {
    assert [l][..0] == [];
    assert LM.Run(w, []) == w;
  }

  lemma Enrolled(w: LM.World, id: L.InstanceId)
    ensures LM.Step(w, LM.Enroll(id)) ==
            (if id in w.db.instances then w else w.(db := w.db.(registrations := w.db.registrations + {id})))
  {}

  ghost function LivesOf(w: World, labels: seq<Label>): seq<LM.Label>
    decreases |labels|
  {
    if labels == [] then []
    else
      var before := labels[..|labels| - 1];
      LivesOf(w, before) + LifeOf(Run(w, before), labels[|labels| - 1])
  }

  /** Every run of both is, for the lifecycle authority, one of its own runs. */
  lemma {:induction false} RunProjects(w: World, labels: seq<Label>)
    requires Initial(w)
    ensures Run(w, labels).life == LM.Run(w.life, LivesOf(w, labels)) && Shared(Run(w, labels))
    decreases |labels|
  {
    hide Step, LifeOf;
    if labels != [] {
      var before := labels[..|labels| - 1];
      RunProjects(w, before);
      StepProjects(Run(w, before), labels[|labels| - 1]);
      Continued(w.life, LivesOf(w, before), LifeOf(Run(w, before), labels[|labels| - 1]));
    }
  }

  lemma {:induction false} Continued(w: LM.World, a: seq<LM.Label>, b: seq<LM.Label>)
    ensures LM.Run(LM.Run(w, a), b) == LM.Run(w, a + b)
    decreases |b|
  {
    hide LM.Step;
    if b == [] {
      assert a + b == a;
    } else {
      Continued(w, a, b[..|b| - 1]);
      assert (a + b)[..|a + b| - 1] == a + b[..|b| - 1] && (a + b)[|a + b| - 1] == b[|b| - 1];
    }
  }

  // --------------------------------------------------------------------- the law

  /** Two authorities never control one instance: over every run of both on one store, an
      instance the controller has is, for the lifecycle authority, at most requested or
      rejected. */
  lemma NeverTwoAuthorities(w: World, labels: seq<Label>, id: L.InstanceId)
    requires Initial(w)
    requires id in Run(w, labels).control.db.instances && id in Run(w, labels).life.db.instances
    ensures Run(w, labels).life.db.instances[id].state in {L.Requested, L.Rejected}
  {
    hide Run, LM.Run, LM.Initial, CM.Initial;
    RunProjects(w, labels);
    LA.OneAuthority(w.life, LivesOf(w, labels), id);
  }

  /** At the very step that registers an instance, the lifecycle authority has none of that
      name, whatever its state. */
  lemma RegistrationFindsNoInstance(w: World, labels: seq<Label>, l: CM.Label, id: C.InstanceId)
    requires Initial(w)
    requires id !in Run(w, labels).control.db.instances && id in Step(Run(w, labels), ByController(l)).control.db.instances
    ensures l.Register? && l.id == id && id !in Run(w, labels).life.db.instances
  {
    hide Run, CM.Step;
    var v := Run(w, labels);
    RunProjects(w, labels);
    Enrolls(v, l);
  }
}
