/** The containers of one job (`DockerSandbox` in docker_sandbox.py). What each Docker
    command comes to is given; inspection is taken to tell the truth when it answers. */
module Sandboxes {
  import opened Records

  datatype Phase = AgentPhase | TestPhase

  datatype Container = Container(job: nat, phase: Phase)

  /** What was raised, by the handler that will see it: the run loop goes on after an
      ordinary exception (an operating-system, value, runtime or HTTP error), gives up
      after any other one, and stops after a clean-up failure; a crash is seen by none. */
  datatype Problem = Ordinary | Unexpected | BadInput | Uncleaned | Crash

  datatype Try<+T> = Ok(value: T) | Raised(problem: Problem)

  // ---------------------------------------------------------------- the Docker engine

  /** The containers that exist, those that run, and whether two have ever run at once. */
  datatype Engine = Engine(present: set<Container>, running: set<Container>, together: bool)

  function Make(e: Engine, c: Container): Engine { e.(present := e.present + {c}) }

  function Launch(e: Engine, c: Container): Engine {
    e.(running := e.running + {c}, together := e.together || e.running - {c} != {})
  }

  function Halt(e: Engine, c: Container): Engine { e.(running := e.running - {c}) }

  function Drop(e: Engine, cs: set<Container>): Engine {
    e.(present := e.present - cs, running := e.running - cs)
  }

  class Host {
    var engine: Engine
    constructor (engine: Engine)
      ensures this.engine == engine
    {
      this.engine := engine;
    }
  }

  // ---------------------------------------------------------------- fortunes of one phase

  /** `docker create`; a failed one may still have made the container. */
  datatype Creation = Created | Uncertain(made: bool) | CreatorDied(made: bool)

  /** `docker start --attach`: whether the container started, whether it has exited by
      the time the command returns, and why it returned. Running the command may itself
      raise an exception, with the container started or not. */
  datatype Attach = Attached(exits: bool, timedOut: bool, cancelled: bool)
                  | NotStarted(timedOut: bool, cancelled: bool)
                  | AttachRaises(starts: bool)
                  | AttachDied(starts: bool)

  /** `docker kill` and the inspection after it, either of which may raise an exception. */
  datatype Stopping = Stopping(kills: bool, answers: bool) | StopRaises(kills: bool) | StopperDied(kills: bool)

  /** `cancelled`: the lease was cancelled before the phase; `exitCode`: what the last
      inspection recorded, if it could be read. */
  datatype PhaseLuck = PhaseLuck(cancelled: bool, creation: Creation, attach: Attach, stop: Stopping,
                                 exitCode: Option<int>)

  datatype Outcome = Outcome(exitCode: int, timedOut: bool, cancelled: bool)

  /** `docker rm --force`: a removal that answers leaves no container of that name, one
      that does not is a clean-up failure, and one that raises ends the clean-up. */
  datatype Removal = Removes | Unclear(gone: bool) | Raises(gone: bool, caught: bool)

  /** A whole clean-up: the order in which the set of names is gone through, what comes of
      each removal, and whether removing the image raises. */
  datatype Sweep = Sweep(testFirst: bool, agent: Removal, test: Removal, image: Option<Removal>)

  predicate Made(l: PhaseLuck) { !l.cancelled && (l.creation.Created? || l.creation.made) }

  predicate Started(l: PhaseLuck) {
    && !l.cancelled && l.creation.Created?
    && (l.attach.Attached? || (!l.attach.NotStarted? && l.attach.starts))
  }

  /** The attach command returned, so that the container is stopped next. */
  predicate Returned(l: PhaseLuck) {
    !l.cancelled && l.creation.Created? && (l.attach.Attached? || l.attach.NotStarted?)
  }

  predicate StillRuns(l: PhaseLuck) {
    Started(l) && (!l.attach.Attached? || (!l.attach.exits && !l.stop.kills))
  }

  /** The engine after a phase. */
  function AfterPhase(e: Engine, c: Container, l: PhaseLuck): Engine {
    var made := if Made(l) then Make(e, c) else e;
    if !Started(l) then (if Returned(l) && l.stop.kills then Halt(made, c) else made)
    else if StillRuns(l) then Launch(made, c)
    else Halt(Launch(made, c), c)
  }

  /** A phase returns an outcome only when its container is known to have stopped. */
  function PhaseResult(e: Engine, c: Container, l: PhaseLuck): Try<Outcome> {
    if l.cancelled || l.creation.Uncertain? then Raised(Ordinary)
    else if l.creation.CreatorDied? || l.attach.AttachDied? then Raised(Crash)
    else if l.attach.AttachRaises? then Raised(Ordinary)
    else if l.stop.StopperDied? then Raised(Crash)
    else if l.stop.StopRaises? then Raised(Ordinary)
    else if !l.stop.answers || c in AfterPhase(e, c, l).running then Raised(Uncleaned)
    else if l.exitCode.None? then Raised(Ordinary)
    else Ok(Outcome(l.exitCode.value, l.attach.timedOut, l.attach.cancelled))
  }

  // ---------------------------------------------------------------- the sandbox

  function Fate(w: Sweep, p: Phase): Removal { if p.AgentPhase? then w.agent else w.test }

  function Other(p: Phase): Phase { if p.AgentPhase? then TestPhase else AgentPhase }

  /** The clean-up comes to this container: no removal before it has raised. */
  predicate Reached(tracked: set<Phase>, w: Sweep, p: Phase) {
    p in tracked && (p.TestPhase? == w.testFirst || Other(p) !in tracked || !Fate(w, Other(p)).Raises?)
  }

  predicate Gone(tracked: set<Phase>, w: Sweep, p: Phase) {
    Reached(tracked, w, p) && (Fate(w, p).Removes? || Fate(w, p).gone)
  }

  /** The containers that a clean-up gets rid of. */
  function Removed(job: nat, tracked: set<Phase>, w: Sweep): set<Container> {
    set p | p in tracked && Gone(tracked, w, p) :: Container(job, p)
  }

  function Raising(r: Removal): Problem
    requires r.Raises?
  {
    if r.caught then Ordinary else Unexpected
  }

  function FirstOf(w: Sweep): Phase { if w.testFirst then TestPhase else AgentPhase }

  /** How a clean-up ends: an exception of a command goes before everything else, and the
      image is removed only when every container is known to be gone. */
  function SweepResult(tracked: set<Phase>, image: bool, w: Sweep): Try<()> {
    var p, q := FirstOf(w), Other(FirstOf(w));
    if p in tracked && Fate(w, p).Raises? then Raised(Raising(Fate(w, p)))
    else if q in tracked && Fate(w, q).Raises? then Raised(Raising(Fate(w, q)))
    else if exists p | p in tracked :: Fate(w, p).Unclear? then Raised(Uncleaned)
    else if image && w.image.Some? && w.image.value.Raises? then Raised(Raising(w.image.value))
    else Ok(())
  }

  class DockerSandbox {
    const host: Host
    const job: nat
    var containers: set<Phase>
    var current: Option<Phase>
    var image: bool          // the image has been given its name

    constructor (host: Host, job: nat)
      ensures this.host == host && this.job == job && containers == {} && current == None && !image
    {
      this.host, this.job := host, job;
      containers, current, image := {}, None, false;
    }

    /** The checks before a job; only after them is there anything to clean up. */
    method Create(passes: bool) returns (r: Try<()>)
      modifies `image
      ensures image == (old(image) || passes)
      ensures r == if passes then Ok(()) else Raised(Ordinary)
    {
      if !passes {
        return Raised(Ordinary);
      }
      image := true;
      r := Ok(());
    }

    /** Kill a container and make sure of it; anything but a clear answer is a failure. */
    method Stop(c: Container, l: Stopping) returns (r: Try<()>)
      modifies host
      ensures host.engine == if l.kills then Halt(old(host.engine), c) else old(host.engine)
      ensures r == if l.StopperDied? then Raised(Crash)
                   else if l.StopRaises? then Raised(Ordinary)
                   else if !l.answers || c in host.engine.running then Raised(Uncleaned) else Ok(())
    {
      if l.kills {
        host.engine := Halt(host.engine, c);
      }
      if l.StopperDied? {
        return Raised(Crash);
      }
      if l.StopRaises? {
        return Raised(Ordinary);
      }
      if !l.answers || c in host.engine.running {
        return Raised(Uncleaned);
      }
      r := Ok(());
    }

    /** Run one phase in its own container and wait until it has stopped. */
    method Execute(phase: Phase, l: PhaseLuck) returns (r: Try<Outcome>)
      modifies this, host
      ensures r == PhaseResult(old(host.engine), Container(job, phase), l)
      ensures host.engine == AfterPhase(old(host.engine), Container(job, phase), l)
      ensures containers == if l.cancelled then old(containers) else old(containers) + {phase}
      ensures image == old(image)
      ensures current == if !l.cancelled && l.creation.Created? then Some(phase) else old(current)
    {
      if l.cancelled {
        return Raised(Ordinary);
      }
      var c := Container(job, phase);
      containers := containers + {phase};
      if l.creation.Created? || l.creation.made {
        host.engine := Make(host.engine, c);
      }
      match l.creation {
        case Uncertain(_) => return Raised(Ordinary);
        case CreatorDied(_) => return Raised(Crash);
        case Created =>
      }
      current := Some(phase);
      match l.attach {
        case NotStarted(_, _) =>
        case AttachRaises(starts) =>
          if starts {
            host.engine := Launch(host.engine, c);
          }
          return Raised(Ordinary);
        case AttachDied(starts) =>
          if starts {
            host.engine := Launch(host.engine, c);
          }
          return Raised(Crash);
        case Attached(exits, _, _) =>
          host.engine := Launch(host.engine, c);
          if exits {
            host.engine := Halt(host.engine, c);
          }
      }
      var stopped := Stop(c, l.stop);
      if stopped.Raised? {
        return Raised(stopped.problem);
      }
      if l.exitCode.None? {
        return Raised(Ordinary);
      }
      r := Ok(Outcome(l.exitCode.value, l.attach.timedOut, l.attach.cancelled));
    }

    /** Remove every tracked container and then the image, and report unclear removals;
        an exception of a command ends the clean-up where it is. */
    method Destroy(w: Sweep) returns (r: Try<()>)
      modifies host
      ensures host.engine == Drop(old(host.engine), Removed(job, containers, w))
      ensures r == SweepResult(containers, image, w)
    {
      var names := [FirstOf(w), Other(FirstOf(w))];
      var failures: set<Phase> := {};
      ghost var was := host.engine;
      ghost var done: set<Container> := {};
      for i := 0 to 2
        invariant forall k | 0 <= k < i :: names[k] in containers ==> !Fate(w, names[k]).Raises?
        invariant failures == set p | p in containers && p in names[..i] && Fate(w, p).Unclear?
        invariant done == set p | p in containers && p in names[..i] && Gone(containers, w, p) :: Container(job, p)
        invariant host.engine == Drop(was, done)
      {
        var p := names[i];
        assert names[..i + 1] == names[..i] + [p];
        assert p == (if i == 0 then FirstOf(w) else Other(FirstOf(w))) && (i == 1 ==> Other(p) == names[0]);
        if p in containers {
          var removal := Fate(w, p);
          assert Reached(containers, w, p);
          if removal.Removes? || removal.gone {
            host.engine := Drop(host.engine, {Container(job, p)});
            done := done + {Container(job, p)};
          }
          if removal.Raises? {
            assert forall q | q in containers :: q == p || q == Other(p);
            assert i == 0 ==> !Reached(containers, w, Other(p));
            assert done == Removed(job, containers, w);
            return Raised(Raising(removal));
          }
          if removal.Unclear? {
            failures := failures + {p};
          }
        }
      }
      assert names[..2] == names;
      forall p | p in containers ensures p in names { assert p == names[0] || p == names[1]; }
      assert forall p | p in containers :: Fate(w, p).Unclear? ==> p in failures;
      assert done == Removed(job, containers, w);
      if failures != {} {
        return Raised(Uncleaned);
      }
      if image && w.image.Some? && w.image.value.Raises? {
        return Raised(Raising(w.image.value));
      }
      r := Ok(());
    }
  }

  // ---------------------------------------------------------------- what a phase guarantees

  /** A phase touches no container but its own, and runs it only if nothing else runs
      or else two containers run together. */
  lemma PhaseIsLocal(e: Engine, c: Container, l: PhaseLuck)
    requires e.running <= e.present
    ensures var e' := AfterPhase(e, c, l);
            && e'.running <= e'.present
            && e'.present - {c} == e.present - {c} && e'.running - {c} == e.running - {c}
            && (e'.together <==> e.together || (Started(l) && e.running - {c} != {}))
  {
  }

  /** A phase that returns an outcome has stopped its container. The container may be left
      running by a clean-up failure, by a crash, and, without either, exactly when the
      command that starts or stops it raised an exception. */
  lemma PhaseStops(e: Engine, c: Container, l: PhaseLuck)
    requires c !in e.running
    ensures PhaseResult(e, c, l).Ok? ==> c !in AfterPhase(e, c, l).running
    ensures PhaseResult(e, c, l) == Raised(Ordinary) ==>
              (c in AfterPhase(e, c, l).running <==> StillRuns(l) && (l.attach.AttachRaises? || l.stop.StopRaises?))
  {
  }
}
