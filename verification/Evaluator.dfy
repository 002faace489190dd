/** One evaluation of a claimed job, whatever goes wrong in it (`Evaluator.evaluate` in
    evaluator.py), and the filing of its result. */
module Evaluators {
  import opened Records
  import opened Sandboxes
  import PatchCounting

  // ---------------------------------------------------------------- fortunes of an evaluation

  /** Download, checks and checkout of the agent and the problem. */
  datatype Inputs = Ready | Rejected | Failed

  /** The JUnit report: usable cases, a `ValueError`, or the XML parser's own error. */
  datatype JUnit = Cases(cases: seq<TestStatus>) | Unusable | NotXml

  datatype Collected = Collected(junit: JUnit, reward: string)

  /** Writing result.pending.json and restricting its mode. */
  datatype Saving = Saved | NotOpened | CutShort | ModeRefused

  datatype Renewals = Renewals(agentStarted: bool, agentFinished: bool, testStarted: bool, testFinished: bool)

  /** Everything that evaluation asks of the world, and what comes of it. `dies` is the
      process ending before, and `diesAfter` after, the result is saved. */
  datatype Luck = Luck(
    created: bool,
    inputs: Inputs,
    cancelledEarly: bool,
    prepared: bool,
    renewals: Renewals,
    agent: PhaseLuck,
    patch: Option<string>,
    candidate: bool,
    test: PhaseLuck,
    collected: Option<Collected>,
    cancelledLate: bool,
    logs: bool,
    usage: Metrics,
    stdout: string, stderr: string, agentOutput: string,
    dies: bool,
    saving: Saving,
    sweep: Sweep,
    diesAfter: bool)

  /** The result files of a job folder. */
  datatype ResultFile = Pending(report: Report) | Corrupt | Accepted(report: Report) | Refused(report: Report)

  class Disk {
    var files: map<nat, ResultFile>
    var workspaces: set<nat>
    constructor (files: map<nat, ResultFile>, workspaces: set<nat>)
      ensures this.files == files && this.workspaces == workspaces
    {
      this.files, this.workspaces := files, workspaces;
    }
  }

  // ---------------------------------------------------------------- what it should come to

  function AgentEngine(e: Engine, job: nat, l: Luck): Engine {
    if Begun(l) then AfterPhase(e, Container(job, AgentPhase), l.agent) else e
  }

  function AgentResult(e: Engine, job: nat, l: Luck): Try<Outcome> {
    PhaseResult(e, Container(job, AgentPhase), l.agent)
  }

  function TestResult(e: Engine, job: nat, l: Luck): Try<Outcome> {
    PhaseResult(AgentEngine(e, job, l), Container(job, TestPhase), l.test)
  }

  predicate Begun(l: Luck) {
    l.created && l.inputs.Ready? && !l.cancelledEarly && l.prepared && l.renewals.agentStarted
  }

  predicate Stopped(o: Outcome) { o.timedOut || o.cancelled }

  /** The agent ran and its patch was collected. */
  predicate AgentRan(e: Engine, job: nat, l: Luck) { Begun(l) && AgentResult(e, job, l).Ok? && l.patch.Some? }

  /** The verifier is started. */
  predicate TestBegun(e: Engine, job: nat, l: Luck) {
    && AgentRan(e, job, l)
    && !Stopped(AgentResult(e, job, l).value) && AgentResult(e, job, l).value.exitCode == 0
    && l.renewals.agentFinished && l.candidate && l.renewals.testStarted
  }

  /** The verifier ran and left something that can be judged. */
  predicate TestRan(e: Engine, job: nat, l: Luck) {
    && TestBegun(e, job, l) && TestResult(e, job, l).Ok?
    && l.collected.Some? && !l.collected.value.junit.NotXml?
  }

  function Tests(e: Engine, job: nat, l: Luck): seq<TestStatus> {
    if TestRan(e, job, l) && l.collected.value.junit.Cases? then l.collected.value.junit.cases else []
  }

  predicate IsSpace(c: char) { c == ' ' || '\t' <= c <= '\r' }

  function Strip(s: string): string {
    if s != "" && IsSpace(s[0]) then Strip(s[1..])
    else if s != "" && IsSpace(s[|s| - 1]) then Strip(s[..|s| - 1])
    else s
  }

  /** The verifier's evidence speaks against the candidate. */
  predicate Failing(o: Outcome, tests: seq<TestStatus>, reward: string) {
    o.exitCode != 0 || TEST_FAILED in tests || Strip(reward) == "0"
  }

  /** The verdict, from how far the evaluation came. */
  function Verdict(e: Engine, job: nat, l: Luck): (JobStatus, Option<FailureType>) {
    if l.created && l.inputs.Rejected? then (FAILED, Some(SECURITY_FAILURE))
    else if AgentRan(e, job, l) && Stopped(AgentResult(e, job, l).value) then (TIMEOUT, Some(TIMED_OUT))
    else if AgentRan(e, job, l) && AgentResult(e, job, l).value.exitCode != 0 then (FAILED, Some(AGENT_FAILURE))
    else if !TestRan(e, job, l) then (FAILED, Some(INFRASTRUCTURE_FAILURE))
    else if Stopped(TestResult(e, job, l).value) then (TIMEOUT, Some(TIMED_OUT))
    else if Tests(e, job, l) == [] then (FAILED, Some(INFRASTRUCTURE_FAILURE))
    else if Failing(TestResult(e, job, l).value, Tests(e, job, l), l.collected.value.reward)
        then (FAILED, Some(TEST_FAILURE))
    else (COMPLETED, None)
  }

  /** The verdict before the handlers have seen what was raised. */
  function Reached(e: Engine, job: nat, l: Luck): (JobStatus, Option<FailureType>) {
    if l.created && l.inputs.Rejected? then (FAILED, Some(INFRASTRUCTURE_FAILURE)) else Verdict(e, job, l)
  }

  function CollectedPatch(e: Engine, job: nat, l: Luck): string {
    if AgentRan(e, job, l) then l.patch.value else ""
  }

  /** The reported metrics: usage as measured, the patch as counted. */
  function Measured(usage: Metrics, patch: string): Metrics {
    var t := PatchCounting.Scan(PatchCounting.NOTHING, PatchCounting.SplitLines(patch));
    usage.(filesChanged := |t.files|, insertions := t.additions, deletions := t.deletions)
  }

  /** The result an evaluation should come to. */
  function ReportOf(e: Engine, job: nat, l: Luck): Report {
    var patch := CollectedPatch(e, job, l);
    Report(Verdict(e, job, l).0, Verdict(e, job, l).1, Tests(e, job, l), Measured(l.usage, patch),
           l.stdout, l.stderr, l.agentOutput, patch)
  }

  /** What the try block raised, if anything. */
  function Interruption(e: Engine, job: nat, l: Luck): Option<Problem> {
    if !l.created then Some(Ordinary)
    else if l.inputs.Rejected? then Some(BadInput)
    else if !Begun(l) then Some(Ordinary)
    else if AgentResult(e, job, l).Raised? then Some(AgentResult(e, job, l).problem)
    else if l.patch.None? then Some(Ordinary)
    else if Stopped(AgentResult(e, job, l).value) || AgentResult(e, job, l).value.exitCode != 0 then None
    else if !TestBegun(e, job, l) then Some(Ordinary)
    else if TestResult(e, job, l).Raised? then Some(TestResult(e, job, l).problem)
    else if !TestRan(e, job, l) then Some(Ordinary)
    else if !l.cancelledLate && !l.renewals.testFinished then Some(Ordinary)
    else None
  }

  function TestEngine(e: Engine, job: nat, l: Luck): Engine {
    if TestBegun(e, job, l) then AfterPhase(AgentEngine(e, job, l), Container(job, TestPhase), l.test)
    else AgentEngine(e, job, l)
  }

  /** The containers the sandbox knows of when it is destroyed. */
  function Tracked(e: Engine, job: nat, l: Luck): set<Phase> {
    (if Begun(l) && !l.agent.cancelled then {AgentPhase} else {})
    + (if TestBegun(e, job, l) && !l.test.cancelled then {TestPhase} else {})
  }

  predicate Died(e: Engine, job: nat, l: Luck) {
    Escaping(e, job, l) == Some(Crash) || l.dies
  }

  /** The containers after the whole evaluation. */
  function AfterEvaluation(e: Engine, job: nat, l: Luck): Engine {
    var e' := TestEngine(e, job, l);
    if Died(e, job, l) || !l.saving.Saved? then e'
    else Drop(e', Removed(job, Tracked(e, job, l), l.sweep))
  }

  /** How the clean-up ends, if it is reached. */
  function CleanUp(e: Engine, job: nat, l: Luck): Try<()> { SweepResult(Tracked(e, job, l), l.created, l.sweep) }

  /** The exception that the handlers let through, if any: bad input and ordinary failures
      become results unless reading the build logs fails as well. */
  function Escaping(e: Engine, job: nat, l: Luck): Option<Problem> {
    match Interruption(e, job, l)
    case Some(BadInput) => None
    case Some(Ordinary) => if l.logs then None else Some(Ordinary)
    case other => other
  }

  /** How the evaluation ends: what it raises, or None for a returned result. */
  function Ending(e: Engine, job: nat, l: Luck): Option<Problem> {
    if Died(e, job, l) then Some(Crash)
    // A failed write takes the place of whatever was being raised.
    else if !l.saving.Saved? then Some(Ordinary)
    else if l.diesAfter then Some(Crash)
    // So does an exception that the clean-up raises.
    else if CleanUp(e, job, l).Raised? then Some(CleanUp(e, job, l).problem)
    else Escaping(e, job, l)
  }

  /** The result files after an evaluation. */
  function Filed(e: Engine, job: nat, l: Luck, files: map<nat, ResultFile>): map<nat, ResultFile> {
    if Died(e, job, l) || l.saving.NotOpened? then files
    else if l.saving.CutShort? then files[job := Corrupt]
    else files[job := Pending(ReportOf(e, job, l))]
  }

  // ---------------------------------------------------------------- the evaluation

  /** The result under construction, the source's dictionary. */
  class Draft {
    var status: JobStatus
    var failure: Option<FailureType>
    var tests: seq<TestStatus>
    var patch: string
    constructor ()
      ensures status == FAILED && failure == Some(INFRASTRUCTURE_FAILURE) && tests == [] && patch == ""
    {
      status, failure, tests, patch := FAILED, Some(INFRASTRUCTURE_FAILURE), [], "";
    }
  }

  /** The body of the try block: an exception leaves the draft as far as it had come. */
  method Attempt(sandbox: DockerSandbox, draft: Draft, l: Luck) returns (r: Try<()>)
    requires draft.status == FAILED && draft.failure == Some(INFRASTRUCTURE_FAILURE)
    requires draft.tests == [] && draft.patch == "" && sandbox.containers == {} && !sandbox.image
    modifies sandbox, sandbox.host, draft
    ensures var e, job := old(sandbox.host.engine), sandbox.job;
            && r == (match Interruption(e, job, l) case None => Ok(()) case Some(p) => Raised(p))
            && sandbox.host.engine == TestEngine(e, job, l)
            && sandbox.containers == Tracked(e, job, l) && sandbox.image == l.created
            && draft.tests == Tests(e, job, l) && draft.patch == CollectedPatch(e, job, l)
            && (draft.status, draft.failure) == Reached(e, job, l)
  {
    var created := sandbox.Create(l.created);
    if created.Raised? { return created; }
    match l.inputs {
      case Rejected => return Raised(BadInput);
      case Failed => return Raised(Ordinary);
      case Ready =>
    }
    if l.cancelledEarly || !l.prepared || !l.renewals.agentStarted { return Raised(Ordinary); }
    var outcome := sandbox.Execute(AgentPhase, l.agent);
    if outcome.Raised? { return Raised(outcome.problem); }
    if l.patch.None? { return Raised(Ordinary); }
    draft.patch := l.patch.value;
    if outcome.value.timedOut || outcome.value.cancelled {
      draft.status, draft.failure := TIMEOUT, Some(TIMED_OUT);
    } else if outcome.value.exitCode != 0 {
      draft.failure := Some(AGENT_FAILURE);
    } else {
      if !l.renewals.agentFinished || !l.candidate || !l.renewals.testStarted { return Raised(Ordinary); }
      var test := sandbox.Execute(TestPhase, l.test);
      if test.Raised? { return Raised(test.problem); }
      if l.collected.None? { return Raised(Ordinary); }
      match l.collected.value.junit {
        case Cases(cases) => draft.tests := cases;
        case Unusable =>
        case NotXml => return Raised(Ordinary);
      }
      if test.value.timedOut || test.value.cancelled {
        draft.status, draft.failure := TIMEOUT, Some(TIMED_OUT);
      } else if draft.tests == [] {
        draft.failure := Some(INFRASTRUCTURE_FAILURE);
      } else if test.value.exitCode != 0 || TEST_FAILED in draft.tests || Strip(l.collected.value.reward) == "0" {
        draft.failure := Some(TEST_FAILURE);
      } else {
        draft.status, draft.failure := COMPLETED, None;
      }
      if !l.cancelledLate && !l.renewals.testFinished { return Raised(Ordinary); }
    }
    r := Ok(());
  }

  lemma HandledVerdict(e: Engine, job: nat, l: Luck)
    ensures Interruption(e, job, l) == Some(BadInput) <==> l.created && l.inputs.Rejected?
    ensures Verdict(e, job, l) == if Interruption(e, job, l) == Some(BadInput) then (FAILED, Some(SECURITY_FAILURE))
                                  else Reached(e, job, l)
  {
  }

  method Measure(usage: Metrics, patch: string) returns (m: Metrics)
    ensures m == Measured(usage, patch)
  {
    var files, insertions, deletions := PatchCounting.PatchMetrics(patch);
    m := usage.(filesChanged := files, insertions := insertions, deletions := deletions);
  }

  /** The try block and its handlers, with the metrics that the finally block adds. */
  method Conclude(sandbox: DockerSandbox, l: Luck) returns (raised: Try<()>, report: Report)
    requires sandbox.containers == {} && !sandbox.image
    modifies sandbox, sandbox.host
    ensures var e, job := old(sandbox.host.engine), sandbox.job;
            && raised == (match Escaping(e, job, l) case None => Ok(()) case Some(p) => Raised(p))
            && sandbox.host.engine == TestEngine(e, job, l)
            && sandbox.containers == Tracked(e, job, l) && sandbox.image == l.created
            && report == ReportOf(e, job, l)
  {
    var draft := new Draft();
    ghost var e := sandbox.host.engine;
    raised := Attempt(sandbox, draft, l);
    HandledVerdict(e, sandbox.job, l);
    if raised == Raised(BadInput) {
      draft.failure := Some(SECURITY_FAILURE);
      raised := Ok(());
    } else if raised == Raised(Ordinary) && l.logs {
      raised := Ok(());
    }
    var metrics := Measure(l.usage, draft.patch);
    report := Report(draft.status, draft.failure, draft.tests, metrics, l.stdout, l.stderr, l.agentOutput, draft.patch);
  }

  /** The rest of the finally block: the result is saved, then the containers are destroyed. */
  method Preserve(sandbox: DockerSandbox, disk: Disk, report: Report, l: Luck) returns (r: Try<()>)
    modifies sandbox.host, disk
    ensures disk.workspaces == old(disk.workspaces)
    ensures disk.files == (match l.saving
                           case NotOpened => old(disk.files)
                           case CutShort => old(disk.files)[sandbox.job := Corrupt]
                           case _ => old(disk.files)[sandbox.job := Pending(report)])
    ensures sandbox.host.engine ==
              if l.saving.Saved? then Drop(old(sandbox.host.engine), Removed(sandbox.job, sandbox.containers, l.sweep))
              else old(sandbox.host.engine)
    ensures r == if !l.saving.Saved? then Raised(Ordinary)
                 else if l.diesAfter then Raised(Crash)
                 else SweepResult(sandbox.containers, sandbox.image, l.sweep)
  {
    match l.saving {
      case NotOpened =>
        return Raised(Ordinary);
      case CutShort =>
        disk.files := disk.files[sandbox.job := Corrupt];
        return Raised(Ordinary);
      case ModeRefused =>
        disk.files := disk.files[sandbox.job := Pending(report)];
        return Raised(Ordinary);
      case Saved =>
        disk.files := disk.files[sandbox.job := Pending(report)];
    }
    r := sandbox.Destroy(l.sweep);
    if l.diesAfter {
      r := Raised(Crash);
    }
  }

  /** Evaluate a job: whatever is raised, the result is saved before its containers are
      destroyed, and only then returned. */
  method Evaluate(host: Host, disk: Disk, job: nat, l: Luck) returns (r: Try<Report>)
    modifies host, disk
    ensures job in old(disk.workspaces) ==>
              && r == Raised(Ordinary) && host.engine == old(host.engine)
              && disk.files == old(disk.files) && disk.workspaces == old(disk.workspaces)
    ensures job !in old(disk.workspaces) ==>
              && disk.workspaces == old(disk.workspaces) + {job}
              && host.engine == AfterEvaluation(old(host.engine), job, l)
              && disk.files == Filed(old(host.engine), job, l, old(disk.files))
              && r == (match Ending(old(host.engine), job, l)
                       case Some(p) => Raised(p)
                       case None => Ok(ReportOf(old(host.engine), job, l)))
  {
    if job in disk.workspaces {
      return Raised(Ordinary);
    }
    disk.workspaces := disk.workspaces + {job};
    var sandbox := new DockerSandbox(host, job);
    var raised, report := Conclude(sandbox, l);
    if raised == Raised(Crash) || l.dies {
      return Raised(Crash);
    }
    var preserved := Preserve(sandbox, disk, report, l);
    if preserved.Raised? {
      return Raised(preserved.problem);
    }
    if raised.Raised? {
      return Raised(raised.problem);
    }
    r := Ok(report);
  }

  // ---------------------------------------------------------------- what a result may say

  /** Result validity: every result that is returned or left on disk, whichever step
      raised, passes the server's consistency check; it says COMPLETED exactly when code 0
      is recorded for the agent's and the verifier's container in time, there is at least
      one test, none failed, and the reward is not 0. */
  lemma ResultsAreValid(e: Engine, job: nat, l: Luck)
    ensures var r := ReportOf(e, job, l);
            && ConsistentStatus(r)
            && (r.status.COMPLETED? <==>
                  && TestRan(e, job, l)
                  && AgentResult(e, job, l) == Ok(Outcome(0, false, false))
                  && TestResult(e, job, l) == Ok(Outcome(0, false, false))
                  && r.tests != [] && TEST_FAILED !in r.tests
                  && Strip(l.collected.value.reward) != "0")
  {
  }

  /** The command that starts the container of a phase failed, and Docker records code 0
      for a container that never ran. */
  predicate PassedUnstarted(l: PhaseLuck) {
    !l.cancelled && l.creation.Created? && l.attach.NotStarted? && l.exitCode == Some(0)
  }

  /** A completed evaluation has run both the agent and the verifier, except exactly when
      the start of one failed and code 0 is recorded for it all the same: the exit code of
      the start command is not looked at. */
  lemma CompletedRanUnless(e: Engine, job: nat, l: Luck)
    requires ReportOf(e, job, l).status.COMPLETED?
    ensures Started(l.agent) <==> !PassedUnstarted(l.agent)
    ensures Started(l.test) <==> !PassedUnstarted(l.test)
  {
    ResultsAreValid(e, job, l);
  }

  /** An agent whose container never started can complete. */
  lemma UnstartedAgentCompletes(job: nat, l: Luck)
    requires l.agent == PhaseLuck(false, Created, NotStarted(false, false), Stopping(false, true), Some(0))
    requires l.test == PhaseLuck(false, Created, Attached(true, false, false), Stopping(false, true), Some(0))
    requires Begun(l) && l.patch.Some? && l.renewals.agentFinished && l.candidate && l.renewals.testStarted
    requires l.collected == Some(Collected(Cases([PASSED]), "1"))
    ensures var e := Engine({}, {}, false);
            ReportOf(e, job, l).status.COMPLETED? && !Started(l.agent)
  {
    assert Strip("1") == "1";
    var e := Engine({}, {}, false);
    assert AgentRan(e, job, l) && AgentResult(e, job, l).value.exitCode == 0 && !Stopped(AgentResult(e, job, l).value);
    assert TestRan(e, job, l) && TestResult(e, job, l).value.exitCode == 0 && !Stopped(TestResult(e, job, l).value);
    assert Tests(e, job, l) == [PASSED];
  }

  /** A returned result is the saved one, and it is saved before anything is destroyed. */
  lemma ReturnedIsSaved(e: Engine, job: nat, l: Luck, files: map<nat, ResultFile>)
    ensures Ending(e, job, l).None? ==>
              && job in Filed(e, job, l, files) && Filed(e, job, l, files)[job] == Pending(ReportOf(e, job, l))
    ensures AfterEvaluation(e, job, l) != TestEngine(e, job, l) ==>
              job in Filed(e, job, l, files) && Filed(e, job, l, files)[job] == Pending(ReportOf(e, job, l))
  {
  }

  /** Losing the lease while reporting that the test finished does not change the verdict. */
  lemma LateLossKeepsVerdict(e: Engine, job: nat, l: Luck, cancelledLate: bool, testFinished: bool)
    ensures var l' := l.(cancelledLate := cancelledLate, renewals := l.renewals.(testFinished := testFinished));
            ReportOf(e, job, l') == ReportOf(e, job, l)
  {
  }

  // ---------------------------------------------------------------- clean up

  predicate Clean(e: Engine) { e.present == {} && e.running == {} && !e.together }

  /** No container of the job is left from before. */
  predicate Fresh(e: Engine, job: nat) {
    e.running <= e.present && forall c | c in e.present :: c.job != job
  }

  /** An evaluation makes containers of its own job only, all of them tracked, and starts
      the verifier's only after the agent's has stopped: the two never run together. */
  lemma PhasesInTurn(e: Engine, job: nat, l: Luck)
    requires Fresh(e, job)
    ensures var e' := TestEngine(e, job, l);
            && e.present <= e'.present && e.running <= e'.running <= e'.present
            && (forall c | c in e'.present :: c in e.present || (c.job == job && c.phase in Tracked(e, job, l)))
            && (forall c | c in e'.running :: c in e.running || c.job == job)
            && (e.running == {} && !e.together ==> !e'.together)
  {
    var agent, test := Container(job, AgentPhase), Container(job, TestPhase);
    assert agent !in e.present && test !in e.present;
    if Begun(l) {
      PhaseIsLocal(e, agent, l.agent);
      PhaseStops(e, agent, l.agent);
      var e1 := AgentEngine(e, job, l);
      assert e.present - {agent} == e.present && e.running - {agent} == e.running;
      assert e.running <= e1.running by { assert e1.running - {agent} <= e1.running; }
      assert e.present <= e1.present by { assert e1.present - {agent} <= e1.present; }
      if TestBegun(e, job, l) {
        assert e1.running - {test} == e1.running by { assert test !in e1.running - {agent}; }
        assert e1.running == e.running by { assert e1.running - {agent} == e1.running; }
        PhaseIsLocal(e1, test, l.test);
        var e2 := TestEngine(e, job, l);
        assert e2.present - {test} <= e2.present && e2.running - {test} <= e2.running;
        assert e1.present - {test} == e1.present by { assert test !in e1.present - {agent}; }
        forall c | c in e2.present ensures c in e.present || c == agent || c == test {
          if c != test { assert c in e2.present - {test}; if c != agent { assert c in e1.present - {agent}; } }
        }
        forall c | c in e2.running ensures c in e.running || c == test {
          if c != test { assert c in e2.running - {test}; }
        }
      }
    }
  }

  predicate GoesOn(e: Engine, job: nat, l: Luck) { Ending(e, job, l) in {None, Some(Ordinary)} }

  /** An ordinary exception cuts the clean-up short: the result could not be saved, or a
      command of the clean-up could not be run. */
  predicate SkipsCleanUp(e: Engine, job: nat, l: Luck) {
    !Died(e, job, l) && (!l.saving.Saved? || (!l.diesAfter && CleanUp(e, job, l) == Raised(Ordinary)))
  }

  /** Every container that the evaluation made is among those the clean-up got rid of. */
  predicate LeavesNothing(e: Engine, job: nat, l: Luck) {
    forall c | c in AfterEvaluation(e, job, l).present :: c.job != job
  }

  /** What was there before an evaluation of another job is still there. */
  lemma OthersStay(e: Engine, job: nat, l: Luck)
    requires Fresh(e, job)
    ensures var e' := AfterEvaluation(e, job, l);
            && e.present <= e'.present && e.running <= e'.running <= e'.present
            && (forall c | c in e'.present :: c in e.present || c.job == job)
            && (forall c | c in e'.running :: c in e.running || c.job == job)
  {
    PhasesInTurn(e, job, l);
    var gone := Removed(job, Tracked(e, job, l), l.sweep);
    assert forall c | c in gone :: c.job == job;
  }

  /** After a saved result and a clean-up that reports nothing, nothing of the job is left. */
  lemma SavedAndConfirmed(e: Engine, job: nat, l: Luck)
    requires Fresh(e, job) && l.saving.Saved? && !Died(e, job, l) && CleanUp(e, job, l).Ok?
    ensures AfterEvaluation(e, job, l).present == e.present && AfterEvaluation(e, job, l).running == e.running
  {
    PhasesInTurn(e, job, l);
    OthersStay(e, job, l);
    var tracked := Tracked(e, job, l);
    forall p | p in tracked ensures Gone(tracked, l.sweep, p) {
      assert !Fate(l.sweep, p).Unclear? && (p == FirstOf(l.sweep) || p == Other(FirstOf(l.sweep)));
      assert Other(p) == FirstOf(l.sweep) || Other(p) == Other(FirstOf(l.sweep));
    }
    forall c | c in TestEngine(e, job, l).present && c !in e.present ensures c in Removed(job, tracked, l.sweep) {
      assert c == Container(job, c.phase) && c.phase in tracked;
    }
  }

  /** A worker goes on to further jobs beside a container of the evaluation if and only if
      the evaluation left one and an ordinary exception cut its clean-up short, which also
      hides a clean-up failure that would have stopped the worker. */
  lemma LeftoverIff(e: Engine, job: nat, l: Luck)
    requires Fresh(e, job)
    ensures GoesOn(e, job, l) && !LeavesNothing(e, job, l) <==>
              SkipsCleanUp(e, job, l) && !LeavesNothing(e, job, l)
    ensures SkipsCleanUp(e, job, l) ==> GoesOn(e, job, l)
    ensures GoesOn(e, job, l) && LeavesNothing(e, job, l) ==>
              AfterEvaluation(e, job, l).present == e.present && AfterEvaluation(e, job, l).running == e.running
  {
    OthersStay(e, job, l);
    if GoesOn(e, job, l) && !SkipsCleanUp(e, job, l) { SavedAndConfirmed(e, job, l); }
    if LeavesNothing(e, job, l) {
      var e' := AfterEvaluation(e, job, l);
      assert forall c | c in e'.present :: c in e.present;
      assert forall c | c in e'.running :: c in e.running;
    }
  }
}
