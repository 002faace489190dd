/** What a report's failure type says about the run, and which reports the service answers
    with another attempt. */
module Verdicts {
  import opened Records
  import opened Sandboxes
  import opened Evaluators
  import PatchCounting
  import Server
  import SI = ServerInvariant

  // ---------------------------------------------------------------- outcomes

  /** A phase returns an outcome exactly when its container was created, its start command
      came back, the container is known to have stopped and its state could be read. */
  lemma OutcomeIff(e: Engine, c: Container, l: PhaseLuck, o: Outcome)
    requires c !in e.running
    ensures PhaseResult(e, c, l) == Ok(o) <==>
              && !l.cancelled && l.creation == Created && (l.attach.Attached? || l.attach.NotStarted?)
              && l.stop.Stopping? && l.stop.answers
              && (l.attach.NotStarted? || l.attach.exits || l.stop.kills)
              && l.exitCode == Some(o.exitCode)
              && o.timedOut == l.attach.timedOut && o.cancelled == l.attach.cancelled
  {
  }

  /** The container was created and its start command came back. */
  predicate CameBack(l: PhaseLuck) {
    !l.cancelled && l.creation == Created && (l.attach.Attached? || l.attach.NotStarted?)
  }

  /** What a phase raises, and why: a crash of the process; a clean-up failure when nobody can
      say that the container has stopped; and an ordinary exception when the lease was lost
      before, the container could not be created, a command could not be run, or the
      recorded state could not be read. */
  lemma PhaseRaisesIff(e: Engine, c: Container, l: PhaseLuck)
    requires c !in e.running
    ensures var r := PhaseResult(e, c, l);
            && (r == Raised(Crash) <==>
                  !l.cancelled && (l.creation.CreatorDied? || (l.creation == Created && l.attach.AttachDied?)
                                   || (CameBack(l) && l.stop.StopperDied?)))
            && (r == Raised(Uncleaned) <==>
                  CameBack(l) && l.stop.Stopping?
                  && (!l.stop.answers || (l.attach.Attached? && !l.attach.exits && !l.stop.kills)))
            && (r == Raised(Ordinary) <==>
                  || l.cancelled || l.creation.Uncertain?
                  || (l.creation == Created && l.attach.AttachRaises?)
                  || (CameBack(l) && l.stop.StopRaises?)
                  || (CameBack(l) && l.stop.Stopping? && l.stop.answers && l.exitCode == None
                      && (l.attach.NotStarted? || l.attach.exits || l.stop.kills)))
            && r != Raised(Unexpected) && r != Raised(BadInput)
  {
  }

  // ---------------------------------------------------------------- clean-up

  /** The removal that the clean-up tries first, and the other one. */
  function FirstRemoval(w: Sweep): Removal { if w.testFirst then w.test else w.agent }

  function SecondRemoval(w: Sweep): Removal { if w.testFirst then w.agent else w.test }

  predicate IsGone(r: Removal) { r == Removes || (r != Removes && r.gone) }

  /** With both containers tracked: the first is gone if its removal worked, the second if
      besides the first command could be run; and the clean-up ends with the exception of
      the first command that could not be run, else as a failure if a removal is unclear,
      and only then removes the image. */
  lemma SweepIff(job: nat, image: bool, w: Sweep)
    ensures var both := {AgentPhase, TestPhase};
            var first, second := FirstRemoval(w), SecondRemoval(w);
            var agentGone := Container(job, AgentPhase) in Removed(job, both, w);
            var testGone := Container(job, TestPhase) in Removed(job, both, w);
            && ((if w.testFirst then testGone else agentGone) <==> IsGone(first))
            && ((if w.testFirst then agentGone else testGone) <==> !first.Raises? && IsGone(second))
            && (forall c | c in Removed(job, both, w) :: c.job == job)
            && SweepResult(both, image, w) ==
                 if first.Raises? then Raised(if first.caught then Ordinary else Unexpected)
                 else if second.Raises? then Raised(if second.caught then Ordinary else Unexpected)
                 else if first.Unclear? || second.Unclear? then Raised(Uncleaned)
                 else if image && w.image.Some? && w.image.value.Raises?
                 then Raised(if w.image.value.caught then Ordinary else Unexpected)
                 else Ok(())
  {
    var both := {AgentPhase, TestPhase};
    assert forall p | p in both :: p == AgentPhase || p == TestPhase;
    assert AgentPhase in both && TestPhase in both;
  }

  /** With one container tracked, the other removal does not matter. */
  lemma SweepOneIff(job: nat, p: Phase, image: bool, w: Sweep)
    ensures var r := if p == TestPhase then w.test else w.agent;
            && (Container(job, p) in Removed(job, {p}, w) <==> IsGone(r))
            && Removed(job, {p}, w) <= {Container(job, p)}
            && SweepResult({p}, image, w) ==
                 if r.Raises? then Raised(if r.caught then Ordinary else Unexpected)
                 else if r.Unclear? then Raised(Uncleaned)
                 else if image && w.image.Some? && w.image.value.Raises?
                 then Raised(if w.image.value.caught then Ordinary else Unexpected)
                 else Ok(())
  {
    var one := {p};
    assert p in one && forall q | q in one :: q == p;
    assert Sandboxes.Reached(one, w, p) && !Sandboxes.Reached(one, w, Other(p));
  }

  // ---------------------------------------------------------------- outcomes of the phases

  /** Nothing has gone wrong before the agent is started. */
  predicate Prepared(l: Luck) {
    l.created && l.inputs == Ready && !l.cancelledEarly && l.prepared && l.renewals.agentStarted
  }

  /** The agent's outcome, if its patch was collected as well. */
  function AgentOutcome(e: Engine, job: nat, l: Luck): Option<Outcome> {
    var r := PhaseResult(e, Container(job, AgentPhase), l.agent);
    if Prepared(l) && r.Ok? && l.patch.Some? then Some(r.value) else None
  }

  predicate InTime(o: Outcome) { !o.timedOut && !o.cancelled }

  /** The verifier's outcome, if what it left behind was collected as well. It is started
      only after the agent has ended in time with code 0. */
  function VerifierOutcome(e: Engine, job: nat, l: Luck): Option<Outcome> {
    var agent := AgentOutcome(e, job, l);
    var e1 := AfterPhase(e, Container(job, AgentPhase), l.agent);
    var r := PhaseResult(e1, Container(job, TestPhase), l.test);
    if && agent.Some? && InTime(agent.value) && agent.value.exitCode == 0
       && l.renewals.agentFinished && l.candidate && l.renewals.testStarted
       && r.Ok? && l.collected.Some? && l.collected.value.junit != NotXml
    then Some(r.value) else None
  }

  /** The test cases that the verifier's report holds. */
  function Verified(l: Luck): seq<TestStatus> {
    if l.collected.Some? && l.collected.value.junit.Cases? then l.collected.value.junit.cases else []
  }

  // ---------------------------------------------------------------- failure types

  predicate AgentTimedOut(e: Engine, job: nat, l: Luck) {
    AgentOutcome(e, job, l).Some? && !InTime(AgentOutcome(e, job, l).value)
  }

  predicate AgentFailed(e: Engine, job: nat, l: Luck) {
    AgentOutcome(e, job, l).Some? && InTime(AgentOutcome(e, job, l).value)
        && AgentOutcome(e, job, l).value.exitCode != 0
  }

  predicate VerifierTimedOut(e: Engine, job: nat, l: Luck) {
    VerifierOutcome(e, job, l).Some? && !InTime(VerifierOutcome(e, job, l).value)
  }

  /** The verifier ended in time and reported at least one test. */
  predicate Judged(e: Engine, job: nat, l: Luck) {
    VerifierOutcome(e, job, l).Some? && InTime(VerifierOutcome(e, job, l).value) && Verified(l) != []
  }

  /** A code, a failed test or a reward of 0 that speaks against the candidate. */
  predicate Against(e: Engine, job: nat, l: Luck)
    requires Judged(e, job, l)
  {
    || VerifierOutcome(e, job, l).value.exitCode != 0
    || (exists i :: 0 <= i < |Verified(l)| && Verified(l)[i] == TEST_FAILED)
    || IsZero(l.collected.value.reward)
  }

  predicate Blank(s: string) { forall i | 0 <= i < |s| :: s[i] in {' ', '\t', '\n', '\U{0b}', '\U{0c}', '\r'} }

  /** The text is a zero between blanks. */
  predicate IsZero(s: string) { exists k :: 0 <= k < |s| && ZeroAt(s, k) }

  predicate ZeroAt(s: string, k: nat) { k < |s| && s[k] == '0' && Blank(s[..k]) && Blank(s[k + 1..]) }

  /** Nothing can be said of the agent: neither were the inputs bad, nor was it too slow or
      failed, nor was its patch judged. */
  predicate NoVerdict(e: Engine, job: nat, l: Luck) {
    && !(l.created && l.inputs == Rejected)
    && !AgentTimedOut(e, job, l) && !AgentFailed(e, job, l) && !VerifierTimedOut(e, job, l) && !Judged(e, job, l)
  }

  lemma BlankIff(c: char, s: string)
    ensures IsSpace(c) <==> c in {' ', '\t', '\n', '\U{0b}', '\U{0c}', '\r'}
    ensures Blank([c] + s) <==> IsSpace(c) && Blank(s)
    ensures Blank(s + [c]) <==> IsSpace(c) && Blank(s)
  {
    assert forall i | 0 <= i < |s| :: ([c] + s)[i + 1] == s[i] && (s + [c])[i] == s[i];
    assert ([c] + s)[0] == c && (s + [c])[|s|] == c;
  }

  lemma BlankFirst(c: char, s: string)
    requires IsSpace(c)
    ensures IsZero([c] + s) <==> IsZero(s)
  {
    forall k: nat ensures ZeroAt([c] + s, k + 1) <==> ZeroAt(s, k) {
      if k < |s| {
        assert ([c] + s)[..k + 1] == [c] + s[..k] && ([c] + s)[k + 2..] == s[k + 1..];
        BlankIff(c, s[..k]);
      }
    }
    if IsZero([c] + s) {
      var k :| 0 <= k < |[c] + s| && ZeroAt([c] + s, k);
      assert k > 0 && ZeroAt([c] + s, k - 1 + 1) && ZeroAt(s, k - 1);
    }
    if IsZero(s) {
      var k :| 0 <= k < |s| && ZeroAt(s, k);
      assert ZeroAt([c] + s, k + 1);
    }
  }

  lemma BlankLast(c: char, s: string)
    requires IsSpace(c)
    ensures IsZero(s + [c]) <==> IsZero(s)
  {
    forall k: nat | k < |s| ensures ZeroAt(s + [c], k) <==> ZeroAt(s, k) {
      assert (s + [c])[..k] == s[..k] && (s + [c])[k + 1..] == s[k + 1..] + [c];
      BlankIff(c, s[k + 1..]);
    }
    if IsZero(s + [c]) {
      var k :| 0 <= k < |s + [c]| && ZeroAt(s + [c], k);
      assert k < |s| && ZeroAt(s, k);
    }
    if IsZero(s) {
      var k :| 0 <= k < |s| && ZeroAt(s, k);
      assert ZeroAt(s + [c], k);
    }
  }

  lemma {:induction false} StripZero(s: string)
    ensures Strip(s) == "0" <==> IsZero(s)
    decreases |s|
  {
    if s != "" && IsSpace(s[0]) {
      StripZero(s[1..]);
      BlankFirst(s[0], s[1..]);
      assert s == [s[0]] + s[1..];
    } else if s != "" && IsSpace(s[|s| - 1]) {
      StripZero(s[..|s| - 1]);
      BlankLast(s[|s| - 1], s[..|s| - 1]);
      assert s == s[..|s| - 1] + [s[|s| - 1]];
    } else {
      NotBlankAround(s);
    }
  }

  lemma BlanksAround(s: string, k: nat)
    requires ZeroAt(s, k)
    ensures forall i | 0 <= i < |s| && i != k :: IsSpace(s[i])
  {
    forall i | 0 <= i < |s| && i != k ensures IsSpace(s[i]) {
      BlankIff(s[i], []);
      if i < k { assert s[..k][i] == s[i]; } else { assert s[k + 1..][i - k - 1] == s[i]; }
    }
  }

  lemma NotBlankAround(s: string)
    requires s == "" || (!IsSpace(s[0]) && !IsSpace(s[|s| - 1]))
    ensures IsZero(s) <==> s == "0"
  {
    if IsZero(s) {
      var k :| 0 <= k < |s| && ZeroAt(s, k);
      BlanksAround(s, k);
      assert s == "0";
    }
    if s == "0" { assert ZeroAt(s, 0); }
  }

  /** Each failure type names its cause, and each cause has its failure type. */
  lemma FailureTypeIff(e: Engine, job: nat, l: Luck)
    ensures var r := ReportOf(e, job, l);
            && (r.failure == Some(SECURITY_FAILURE) <==> l.created && l.inputs == Rejected)
            && (r.failure == Some(TIMED_OUT) <==> AgentTimedOut(e, job, l) || VerifierTimedOut(e, job, l))
            && (r.failure == Some(AGENT_FAILURE) <==> AgentFailed(e, job, l))
            && (r.failure == Some(TEST_FAILURE) <==> Judged(e, job, l) && Against(e, job, l))
            && (r.failure == None <==> Judged(e, job, l) && !Against(e, job, l))
            && (r.failure == Some(INFRASTRUCTURE_FAILURE) <==> NoVerdict(e, job, l))
            && r.status == (if r.failure == None then COMPLETED
                            else if r.failure == Some(TIMED_OUT) then TIMEOUT else FAILED)
  {
    if l.collected.Some? { StripZero(l.collected.value.reward); }
  }

  // ---------------------------------------------------------------- how an evaluation ends

  /** A phase that was started raised this. */
  predicate PhaseRaised(e: Engine, job: nat, l: Luck, p: Problem) {
    var agent := AgentOutcome(e, job, l);
    var e1 := AfterPhase(e, Container(job, AgentPhase), l.agent);
    || (Prepared(l) && PhaseResult(e, Container(job, AgentPhase), l.agent) == Raised(p))
    || (&& agent.Some? && InTime(agent.value) && agent.value.exitCode == 0
        && l.renewals.agentFinished && l.candidate && l.renewals.testStarted
        && PhaseResult(e1, Container(job, TestPhase), l.test) == Raised(p))
  }

  /** The evaluation came to the end of what it does: the agent was judged by its own
      outcome, or the verifier's was collected and the last renewal made, if still wanted. */
  predicate CameToEnd(e: Engine, job: nat, l: Luck) {
    || AgentTimedOut(e, job, l) || AgentFailed(e, job, l)
    || (VerifierOutcome(e, job, l).Some? && (l.cancelledLate || l.renewals.testFinished))
  }

  /** The handlers let nothing through: the end was reached, the inputs were bad, or an
      ordinary exception was noted together with the build logs. */
  predicate Handled(e: Engine, job: nat, l: Luck) {
    || CameToEnd(e, job, l) || (l.created && l.inputs == Rejected)
    || (l.logs && !PhaseRaised(e, job, l, Uncleaned))
  }

  predicate ProcessDies(e: Engine, job: nat, l: Luck) { l.dies || PhaseRaised(e, job, l, Crash) }

  /** How an evaluation ends, and why. */
  lemma EndingIff(e: Engine, job: nat, l: Luck)
    ensures var swept := SweepResult(Tracked(e, job, l), l.created, l.sweep);
            var lives := !ProcessDies(e, job, l) && l.saving.Saved? && !l.diesAfter;
            var ending := Ending(e, job, l);
            && (ending == Some(Crash) <==> ProcessDies(e, job, l) || (l.saving.Saved? && l.diesAfter))
            && (ending == None <==> lives && swept.Ok? && Handled(e, job, l))
            && (ending == Some(Unexpected) <==> lives && swept == Raised(Unexpected))
            && (ending == Some(Uncleaned) <==>
                  lives && (swept == Raised(Uncleaned) || (swept.Ok? && PhaseRaised(e, job, l, Uncleaned))))
            && (ending == Some(Ordinary) <==>
                  && !ProcessDies(e, job, l)
                  && (|| !l.saving.Saved?
                      || (!l.diesAfter && (swept == Raised(Ordinary)
                                           || (swept.Ok? && !Handled(e, job, l)
                                               && !PhaseRaised(e, job, l, Uncleaned))))))
  {
  }

  /** Which containers the clean-up is told to remove. */
  lemma TrackedIff(e: Engine, job: nat, l: Luck)
    ensures AgentPhase in Tracked(e, job, l) <==> Prepared(l) && !l.agent.cancelled
    ensures TestPhase in Tracked(e, job, l) <==>
              && AgentOutcome(e, job, l).Some? && InTime(AgentOutcome(e, job, l).value)
              && AgentOutcome(e, job, l).value.exitCode == 0
              && l.renewals.agentFinished && l.candidate && l.renewals.testStarted && !l.test.cancelled
  {
  }

  /** What an evaluation leaves of its result on disk: nothing if the process died first or
      the file could not be opened, a torn file if the write was cut short, and otherwise
      the report, whatever is raised afterwards; other files are as they were. */
  lemma FiledIff(e: Engine, job: nat, l: Luck, files: map<nat, ResultFile>)
    ensures var files' := Filed(e, job, l, files);
            && files' - {job} == files - {job}
            && (ProcessDies(e, job, l) || l.saving == NotOpened ==> files' == files)
            && (!ProcessDies(e, job, l) && l.saving == CutShort ==> job in files' && files'[job] == Corrupt)
            && (!ProcessDies(e, job, l) && l.saving in {Saved, ModeRefused} ==>
                  job in files' && files'[job] == Pending(ReportOf(e, job, l)))
  {
  }

  /** What else a report holds: the patch if the agent returned, the tests if the verifier
      did, and the counts of the patch's lines. */
  lemma ReportHolds(e: Engine, job: nat, l: Luck)
    ensures var r := ReportOf(e, job, l);
            var lines := PatchCounting.SplitLines(r.patch);
            && r.patch == (if AgentOutcome(e, job, l).Some? then l.patch.value else "")
            && r.tests == (if VerifierOutcome(e, job, l).Some? then Verified(l) else [])
            && (r.stdout, r.stderr, r.agentOutput) == (l.stdout, l.stderr, l.agentOutput)
            && r.metrics.filesChanged == |PatchCounting.HeadersIn(lines)|
            && r.metrics.insertions == PatchCounting.CountStarting(lines, "+") - PatchCounting.Missed(false, lines, "+")
            && r.metrics.deletions == PatchCounting.CountStarting(lines, "-") - PatchCounting.Missed(false, lines, "-")
            && r.metrics == l.usage.(filesChanged := r.metrics.filesChanged, insertions := r.metrics.insertions,
                                     deletions := r.metrics.deletions)
  {
    var r := ReportOf(e, job, l);
    PatchCounting.ScanCounts(PatchCounting.NOTHING, PatchCounting.SplitLines(r.patch));
  }

  /** From the worker's run to the service's decision: an accepted result is followed by
      another attempt if and only if nothing could be said of the agent and the limit
      allows one. */
  lemma RetriedIff(e: Engine, job: nat, l: Luck, c: Server.Config, t: Server.Tables, q: Server.Request,
                   env: Server.Env, now: real)
    requires SI.Inv(c, t) && Server.Legal(c, t, Server.OpRequest(q, env), now) && q.worker < |t.workers|
    requires q.SendResult? && q.report == ReportOf(e, job, l)
    requires |Server.Handle(c, t, q, env, now).0.evaluations| > |t.evaluations|
    ensures q.job < |t.jobs|
    ensures |Server.Handle(c, t, q, env, now).0.jobs| ==
              |t.jobs| + if NoVerdict(e, job, l) && t.jobs[q.job].attempt < c.maxAttempts then 1 else 0
  {
    FailureTypeIff(e, job, l);
    if Server.Presents(t, q.worker, q.job, q.token) && !Server.Evaluated(t, q.job)
       && Server.LeaseLive(t.jobs[q.job], env.at) {
      SI.ResultKeepsInv(c, t, q.worker, q.job, q.report, env, now);
    }
  }
}
