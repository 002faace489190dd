/** Clean before claim: what lies about whenever a worker asks for a job. */
module RunLoopSafety {
  import opened Records
  import opened Sandboxes
  import opened Evaluators
  import opened RunLoop

  /** Every container belongs to a job whose workspace is still there, so that recovery
      will find it. */
  predicate Covered(s: Local) {
    s.engine.running <= s.engine.present && forall c | c in s.engine.present :: c.job in s.workspaces
  }

  /** Holds in every life of every worker, whatever fails. */
  predicate Recoverable(s: Local) {
    && Covered(s)
    && |UnsettledJobs(s.files)| <= 1
    && forall k | 0 <= k < |s.claims| :: s.claims[k].unsettled == {}
  }

  /** Every claim so far met nothing of an earlier job, and no two containers ran together. */
  predicate Orderly(s: Local) {
    && Recoverable(s)
    && !s.engine.together
    && forall k | 0 <= k < |s.claims| :: s.claims[k] == NOTHING_LEFT
  }

  predicate Tidy(s: Local) { Orderly(s) && (!s.stopped ==> Clean(s.engine)) }

  // ---------------------------------------------------------------- replay and recovery

  /** A replay settles what it comes to and leaves nothing new unsettled. */
  lemma {:induction false} ReplaySettles(files: map<nat, ResultFile>, order: seq<nat>, answers: seq<ReplayLuck>)
    requires |order| == |answers|
    ensures var (files', settled) := Replayed(files, order, answers);
            && UnsettledJobs(files') <= UnsettledJobs(files)
            && (settled ==> forall j | j in order :: j !in UnsettledJobs(files'))
    decreases |order|
  {
    if order != [] && order[0] in files && files[order[0]].Pending? {
      var j := order[0];
      var r := files[j].report;
      if answers[0] == Receipts(true, true) {
        ReplaySettles(files[j := Accepted(r)], order[1..], answers[1..]);
        SettledOne(files, j, Accepted(r));
      } else if answers[0].Status? && answers[0].code in REFUSALS && answers[0].renamed {
        ReplaySettles(files[j := Refused(r)], order[1..], answers[1..]);
        SettledOne(files, j, Refused(r));
      }
    }
  }

  lemma SettledOne(files: map<nat, ResultFile>, j: nat, f: ResultFile)
    requires !Unsettled(f)
    ensures UnsettledJobs(files[j := f]) == UnsettledJobs(files) - {j}
  {
  }

  lemma SubsetSize(a: set<nat>, b: set<nat>)
    requires a <= b
    ensures |a| <= |b|
  {
    assert b == a + (b - a);
  }

  lemma InBoth(p: Phase)
    ensures p in BOTH
  {
  }

  lemma {:induction false} RecoveryRemoves(e: Engine, folders: seq<nat>, sweeps: seq<Sweep>)
    requires |folders| == |sweeps|
    ensures var (e', clean) := Recovered(e, folders, sweeps);
            && e'.present <= e.present && e'.running <= e.running && e'.together == e.together
            && (e.running <= e.present ==> e'.running <= e'.present)
            && (clean ==> forall c | c in e'.present :: c.job !in folders)
    decreases |folders|
  {
    if folders != [] {
      var gone := Removed(folders[0], BOTH, sweeps[0]);
      if SweepResult(BOTH, true, sweeps[0]).Ok? {
        RecoveryRemoves(Drop(e, gone), folders[1..], sweeps[1..]);
        forall c: Container | c.job == folders[0] ensures c in gone {
          SweptAll(sweeps[0], c.phase);
          assert c == Container(folders[0], c.phase);
        }
      }
    }
  }

  lemma SweptAll(w: Sweep, p: Phase)
    requires SweepResult(BOTH, true, w).Ok?
    ensures p in BOTH && Gone(BOTH, w, p)
  {
    InBoth(p);
    InBoth(Other(p));
    assert !Fate(w, p).Unclear? && (p == FirstOf(w) || p == Other(FirstOf(w)));
    assert Other(p) == FirstOf(w) || Other(p) == Other(FirstOf(w));
  }

  /** A restart whose recovery succeeds finds and removes every container that earlier
      processes left, however they ended, and settles every pending result. */
  lemma RestartCleans(s: Local, v: Session)
    requires Recoverable(s) && LegalStart(s, v)
    ensures var s' := AfterStart(s, v);
            && Recoverable(s')
            && (!s'.stopped ==> s'.engine.present == {} && s'.engine.running == {} && UnsettledJobs(s'.files) == {})
            && s'.engine.together == s.engine.together && s'.claims == s.claims
  {
    var s' := AfterStart(s, v);
    RecoveryRemoves(s.engine, v.folders, v.sweeps);
    ReplaySettles(s.files, v.order, v.answers);
    SubsetSize(UnsettledJobs(s'.files), UnsettledJobs(s.files));
    var (e, clean) := Recovered(s.engine, v.folders, v.sweeps);
    if clean {
      forall c | c in s.engine.present ensures c.job in v.folders { assert c.job in s.workspaces; }
      assert e.present == {};
    }
    assert !s'.stopped ==> UnsettledJobs(s'.files) == {};
  }

  // ---------------------------------------------------------------- one job

  lemma {:induction false} UploadKeeps(s: Local, job: nat, tries: seq<UploadTry>)
    requires job in s.files && s.files[job].Pending?
    ensures var s' := AfterUpload(s, job, tries);
            && s'.engine == s.engine && s'.claims == s.claims
            && UnsettledJobs(s'.files) <= UnsettledJobs(s.files)
            && s.workspaces - {job} <= s'.workspaces
    decreases |tries|
  {
    if tries != [] {
      match tries[0]
      case Received(ack) => SettledOne(s.files, job, Accepted(s.files[job].report));
      case TransportFails(cancelled) => if !cancelled { UploadKeeps(s, job, tries[1..]); }
      case StatusFails =>
    }
  }

  lemma EvaluationIsCovered(s: Local, job: nat, l: Luck)
    requires Covered(s) && job !in s.workspaces
    ensures var e' := AfterEvaluation(s.engine, job, l);
            && e'.running <= e'.present && Fresh(s.engine, job)
            && (forall c | c in e'.present :: c.job in s.workspaces + {job})
            && (Ending(s.engine, job, l).None? ==> forall c | c in e'.present :: c.job in s.workspaces)
  {
    OthersStay(s.engine, job, l);
    if Ending(s.engine, job, l).None? { SavedAndConfirmed(s.engine, job, l); }
  }

  lemma JobKeepsRecoverable(s: Local, job: nat, t: Turn)
    requires Recoverable(s) && UnsettledJobs(s.files) == {}
    ensures Recoverable(AfterJob(s, job, t))
  {
    if job !in s.workspaces {
      EvaluationIsCovered(s, job, t.luck);
      var files := Filed(s.engine, job, t.luck, s.files);
      var s1 := s.(engine := AfterEvaluation(s.engine, job, t.luck), files := files,
                   workspaces := s.workspaces + {job});
      var s' := AfterJob(s, job, t);
      assert UnsettledJobs(files) <= {job};
      SubsetSize(UnsettledJobs(files), {job});
      if Ending(s.engine, job, t.luck).None? && !t.cancelled {
        UploadKeeps(s1, job, t.tries);
        SubsetSize(UnsettledJobs(s'.files), UnsettledJobs(files));
        assert s.workspaces <= s1.workspaces - {job};
      }
    }
  }

  /** What a job does to containers and claims, whatever becomes of its result. */
  lemma JobEngine(s: Local, job: nat, t: Turn)
    requires job !in s.workspaces
    ensures var s' := AfterJob(s, job, t);
            && s'.engine == AfterEvaluation(s.engine, job, t.luck) && s'.claims == s.claims
            && (!GoesOn(s.engine, job, t.luck) ==> s'.stopped)
            && (SkipsCleanUp(s.engine, job, t.luck) ==> s'.stopped == s.stopped)
  {
    if Ending(s.engine, job, t.luck).None? && !t.cancelled {
      UploadKeeps(s.(engine := AfterEvaluation(s.engine, job, t.luck), files := Filed(s.engine, job, t.luck, s.files),
                     workspaces := s.workspaces + {job}), job, t.tries);
    }
  }

  /** A clean-up failure stops the worker exactly when the result was saved and no command
      of the clean-up raised another exception in its place. */
  lemma CleanUpFailureStopsIff(s: Local, job: nat, t: Turn)
    requires job !in s.workspaces && !Died(s.engine, job, t.luck) && !t.luck.diesAfter
    requires CleanUp(s.engine, job, t.luck) == Raised(Uncleaned)
             || Interruption(s.engine, job, t.luck) == Some(Uncleaned)
    ensures AfterJob(s, job, t).stopped <==>
              s.stopped || (t.luck.saving.Saved? && CleanUp(s.engine, job, t.luck) != Raised(Ordinary))
  {
  }

  // ---------------------------------------------------------------- turns, processes, lives

  /** The state in which a turn asks for a job. */
  lemma TurnStart(s: Local, t: Turn)
    requires Recoverable(s) && LegalTurn(s, t)
    ensures var (files, settled) := Replayed(s.files, t.order, t.answers);
            Recoverable(s.(files := files)) && (settled ==> UnsettledJobs(files) == {})
  {
    var (files, settled) := Replayed(s.files, t.order, t.answers);
    ReplaySettles(s.files, t.order, t.answers);
    SubsetSize(UnsettledJobs(files), UnsettledJobs(s.files));
    assert settled ==> UnsettledJobs(files) == {};
  }

  /** The turn gets as far as asking for a job. */
  predicate AsksNow(s: Local, t: Turn)
    requires |t.answers| == |t.order|
  {
    Replayed(s.files, t.order, t.answers).1 && (!t.beatDue || t.beatSent) && t.pollDue
  }

  /** The job that the turn evaluates, if any. */
  function JobOf(s: Local, t: Turn): Option<nat>
    requires |t.answers| == |t.order|
  {
    if AsksNow(s, t) && t.claim.Grants? && t.entered && t.claim.job !in s.workspaces then Some(t.claim.job) else None
  }

  /** The turn's evaluation leaves a container behind, and an ordinary exception cuts its
      clean-up short: its result is not saved, or a command of the clean-up cannot be run. */
  predicate Slips(s: Local, t: Turn)
    requires |t.answers| == |t.order|
  {
    && JobOf(s, t).Some?
    && SkipsCleanUp(s.engine, JobOf(s, t).value, t.luck)
    && !LeavesNothing(s.engine, JobOf(s, t).value, t.luck)
  }

  /** What a turn does to containers and claims. */
  lemma TurnEngine(s: Local, t: Turn)
    requires LegalTurn(s, t) && !s.stopped
    ensures var s' := AfterTurn(s, t);
            && (var unsettled := UnsettledJobs(Replayed(s.files, t.order, t.answers).0);
                s'.claims == s.claims + if AsksNow(s, t) then [Seen(s.engine.present, s.engine.running, unsettled)]
                                        else [])
            && (if JobOf(s, t).None? then s'.engine == s.engine && !s'.stopped
                else
                  && s'.engine == AfterEvaluation(s.engine, JobOf(s, t).value, t.luck)
                  && (!s'.stopped ==> GoesOn(s.engine, JobOf(s, t).value, t.luck))
                  && (SkipsCleanUp(s.engine, JobOf(s, t).value, t.luck) ==> !s'.stopped))
  {
    var s1 := s.(files := Replayed(s.files, t.order, t.answers).0);
    if JobOf(s, t).Some? { JobEngine(s1.(claims := s1.claims + [AtClaim(s1)]), t.claim.job, t); }
  }

  lemma TurnKeepsRecoverable(s: Local, t: Turn)
    requires Recoverable(s) && LegalTurn(s, t)
    ensures Recoverable(AfterTurn(s, t))
  {
    TurnStart(s, t);
    var (files, settled) := Replayed(s.files, t.order, t.answers);
    var s1 := s.(files := files);
    if settled && (!t.beatDue || t.beatSent) && t.pollDue {
      var s2 := s1.(claims := s1.claims + [AtClaim(s1)]);
      assert Recoverable(s2);
      if t.claim.Grants? && t.entered { JobKeepsRecoverable(s2, t.claim.job, t); }
    }
  }

  /** A turn that starts clean ends clean or stopped unless it slips, and if it slips it
      ends neither clean nor stopped. */
  lemma TurnKeepsTidy(s: Local, t: Turn)
    requires Tidy(s) && !s.stopped && LegalTurn(s, t)
    ensures Orderly(AfterTurn(s, t)) && (!Slips(s, t) ==> Tidy(AfterTurn(s, t)))
    ensures Slips(s, t) ==> AfterTurn(s, t).engine.present != {} && !AfterTurn(s, t).stopped
  {
    TurnStart(s, t);
    TurnKeepsRecoverable(s, t);
    TurnEngine(s, t);
    if JobOf(s, t).Some? {
      PhasesInTurn(s.engine, JobOf(s, t).value, t.luck);
      LeftoverIff(s.engine, JobOf(s, t).value, t.luck);
    }
  }

  /** A turn in this process or a later one of the same asks for a job. */
  predicate Asks(s: Local, turns: seq<Turn>)
    requires LegalTurns(s, turns)
    decreases |turns|
  {
    turns != [] && !s.stopped && (AsksNow(s, turns[0]) || Asks(AfterTurn(s, turns[0]), turns[1..]))
  }

  /** A turn slips and a later turn of the same process asks for a job. */
  predicate AsksAfterSlip(s: Local, turns: seq<Turn>)
    requires LegalTurns(s, turns)
    decreases |turns|
  {
    && turns != [] && !s.stopped
    && ((Slips(s, turns[0]) && Asks(AfterTurn(s, turns[0]), turns[1..]))
        || AsksAfterSlip(AfterTurn(s, turns[0]), turns[1..]))
  }

  lemma {:induction false} TurnsKeepRecoverable(s: Local, turns: seq<Turn>)
    requires Recoverable(s) && LegalTurns(s, turns)
    ensures Recoverable(AfterTurns(s, turns)) && s.claims <= AfterTurns(s, turns).claims
    decreases |turns|
  {
    if turns != [] && !s.stopped {
      TurnKeepsRecoverable(s, turns[0]);
      TurnEngine(s, turns[0]);
      TurnsKeepRecoverable(AfterTurn(s, turns[0]), turns[1..]);
    }
  }

  lemma {:induction false} QuietTurns(s: Local, turns: seq<Turn>)
    requires LegalTurns(s, turns) && !Asks(s, turns)
    ensures AfterTurns(s, turns).claims == s.claims && AfterTurns(s, turns).engine == s.engine
    decreases |turns|
  {
    if turns != [] && !s.stopped {
      TurnEngine(s, turns[0]);
      QuietTurns(AfterTurn(s, turns[0]), turns[1..]);
    }
  }

  lemma {:induction false} TurnsStayOrderly(s: Local, turns: seq<Turn>)
    requires Tidy(s) && LegalTurns(s, turns) && !AsksAfterSlip(s, turns)
    ensures Orderly(AfterTurns(s, turns))
    decreases |turns|
  {
    if turns != [] && !s.stopped {
      var s1 := AfterTurn(s, turns[0]);
      TurnKeepsTidy(s, turns[0]);
      if Slips(s, turns[0]) {
        QuietTurns(s1, turns[1..]);
        TurnsKeepRecoverable(s1, turns[1..]);
      } else {
        TurnsStayOrderly(s1, turns[1..]);
      }
    }
  }

  /** A claim was made beside something left of an earlier job. */
  predicate ClaimedBeside(s: Local) { exists k :: 0 <= k < |s.claims| && s.claims[k] != NOTHING_LEFT }

  lemma ClaimsStay(s: Local, s': Local)
    requires ClaimedBeside(s) && s.claims <= s'.claims
    ensures ClaimedBeside(s')
  {
    var k :| 0 <= k < |s.claims| && s.claims[k] != NOTHING_LEFT;
    assert s'.claims[k] != NOTHING_LEFT;
  }

  /** Within one process nothing removes what an earlier job left. */
  lemma {:induction false} LeftoverIsMet(s: Local, turns: seq<Turn>)
    requires Recoverable(s) && s.engine.present != {} && LegalTurns(s, turns) && Asks(s, turns)
    ensures ClaimedBeside(AfterTurns(s, turns))
    decreases |turns|
  {
    var s1 := AfterTurn(s, turns[0]);
    TurnKeepsRecoverable(s, turns[0]);
    TurnEngine(s, turns[0]);
    if AsksNow(s, turns[0]) {
      assert s1.claims[|s.claims|] != NOTHING_LEFT;
      TurnsKeepRecoverable(s1, turns[1..]);
      ClaimsStay(s1, AfterTurns(s1, turns[1..]));
    } else {
      LeftoverIsMet(s1, turns[1..]);
    }
  }

  lemma {:induction false} SlipIsMet(s: Local, turns: seq<Turn>)
    requires Tidy(s) && LegalTurns(s, turns) && AsksAfterSlip(s, turns)
    ensures ClaimedBeside(AfterTurns(s, turns))
    decreases |turns|
  {
    var s1 := AfterTurn(s, turns[0]);
    TurnKeepsTidy(s, turns[0]);
    if Slips(s, turns[0]) {
      if Asks(s1, turns[1..]) {
        LeftoverIsMet(s1, turns[1..]);
      } else {
        NoSlipWithoutAsking(s1, turns[1..]);
      }
    } else {
      SlipIsMet(s1, turns[1..]);
    }
  }

  lemma {:induction false} NoSlipWithoutAsking(s: Local, turns: seq<Turn>)
    requires LegalTurns(s, turns) && !Asks(s, turns)
    ensures !AsksAfterSlip(s, turns)
    decreases |turns|
  {
    if turns != [] && !s.stopped { NoSlipWithoutAsking(AfterTurn(s, turns[0]), turns[1..]); }
  }

  /** Some process of a life asks for a job after it has slipped. */
  predicate SlipsThrough(s: Local, life: seq<Session>)
    requires LegalLife(s, life)
    decreases |life|
  {
    && life != []
    && (AsksAfterSlip(AfterStart(s, life[0]), life[0].turns)
        || SlipsThrough(AfterTurns(AfterStart(s, life[0]), life[0].turns), life[1..]))
  }

  lemma {:induction false} LifeKeepsRecoverable(s: Local, life: seq<Session>)
    requires Recoverable(s) && LegalLife(s, life)
    ensures Recoverable(AfterLife(s, life)) && s.claims <= AfterLife(s, life).claims
    decreases |life|
  {
    if life != [] {
      RestartCleans(s, life[0]);
      TurnsKeepRecoverable(AfterStart(s, life[0]), life[0].turns);
      LifeKeepsRecoverable(AfterTurns(AfterStart(s, life[0]), life[0].turns), life[1..]);
    }
  }

  lemma {:induction false} LifeIsOrderlyIff(s: Local, life: seq<Session>)
    requires Orderly(s) && LegalLife(s, life)
    ensures !SlipsThrough(s, life) ==> Orderly(AfterLife(s, life))
    ensures SlipsThrough(s, life) ==> ClaimedBeside(AfterLife(s, life))
    decreases |life|
  {
    if life != [] {
      var s0 := AfterStart(s, life[0]);
      var s1 := AfterTurns(s0, life[0].turns);
      RestartCleans(s, life[0]);
      TurnsKeepRecoverable(s0, life[0].turns);
      if AsksAfterSlip(s0, life[0].turns) {
        SlipIsMet(s0, life[0].turns);
        LifeKeepsRecoverable(s1, life[1..]);
        ClaimsStay(s1, AfterLife(s1, life[1..]));
      } else {
        TurnsStayOrderly(s0, life[0].turns);
        LifeIsOrderlyIff(s1, life[1..]);
      }
    }
  }

  // ---------------------------------------------------------------- main results

  /** Settled before claim, whatever fails: in every life of a worker, at every claim there
      is no pending result, never more than one exists, and every container that is left
      belongs to a job whose workspace recovery will visit. */
  lemma SettledBeforeClaim(life: seq<Session>)
    requires LegalLife(FRESH, life)
    ensures var s := AfterLife(FRESH, life);
            && |UnsettledJobs(s.files)| <= 1
            && (forall k | 0 <= k < |s.claims| :: s.claims[k].unsettled == {})
            && (forall c | c in s.engine.present :: c.job in s.workspaces)
  {
    LifeKeepsRecoverable(FRESH, life);
  }

  /** Clean before claim: through any failures, crashes and restarts, every claim of a life
      meets no container of an earlier job, if and only if no process asks for a job after
      an evaluation of its own left a container and an ordinary exception cut the clean-up
      short. Then no two containers ever run together either. */
  lemma CleanBeforeClaimIff(life: seq<Session>)
    requires LegalLife(FRESH, life)
    ensures var s := AfterLife(FRESH, life);
            && ((forall k | 0 <= k < |s.claims| :: s.claims[k] == NOTHING_LEFT) <==> !SlipsThrough(FRESH, life))
            && (!SlipsThrough(FRESH, life) ==> !s.engine.together)
  {
    LifeIsOrderlyIff(FRESH, life);
  }

  /** The result is saved and no command of the clean-up raises an exception that the run
      loop would catch. */
  predicate Careful(l: Luck) {
    l.saving.Saved? && forall r | r in [l.sweep.agent, l.sweep.test] :: r.Raises? ==> !r.caught
  }

  predicate AllCareful(turns: seq<Turn>) { forall k | 0 <= k < |turns| :: Careful(turns[k].luck) }

  lemma {:induction false} CarefulTurnsDoNotSlip(s: Local, turns: seq<Turn>)
    requires Recoverable(s) && LegalTurns(s, turns) && AllCareful(turns)
    ensures !AsksAfterSlip(s, turns)
    decreases |turns|
  {
    if turns != [] && !s.stopped {
      TurnKeepsRecoverable(s, turns[0]);
      CarefulTurnsDoNotSlip(AfterTurn(s, turns[0]), turns[1..]);
      if Slips(s, turns[0]) { CarefulLeavesNothing(s.engine, JobOf(s, turns[0]).value, turns[0].luck); }
    }
  }

  /** When only the removal of the image raised, the containers are gone. */
  lemma CarefulLeavesNothing(e: Engine, job: nat, l: Luck)
    requires Fresh(e, job) && Careful(l) && SkipsCleanUp(e, job, l)
    ensures LeavesNothing(e, job, l)
  {
    assert l.sweep.agent in [l.sweep.agent, l.sweep.test] && l.sweep.test in [l.sweep.agent, l.sweep.test];
    var swept := l.(sweep := l.sweep.(image := None));
    SavedAndConfirmed(e, job, swept);
    OthersStay(e, job, l);
  }

  /** In particular a life is clean before every claim when every result is saved and
      every command of a clean-up can be run. */
  lemma {:induction false} CarefulLifeDoesNotSlip(s: Local, life: seq<Session>)
    requires Recoverable(s) && LegalLife(s, life) && forall k | 0 <= k < |life| :: AllCareful(life[k].turns)
    ensures !SlipsThrough(s, life)
    decreases |life|
  {
    if life != [] {
      var s0 := AfterStart(s, life[0]);
      RestartCleans(s, life[0]);
      CarefulTurnsDoNotSlip(s0, life[0].turns);
      TurnsKeepRecoverable(s0, life[0].turns);
      CarefulLifeDoesNotSlip(AfterTurns(s0, life[0].turns), life[1..]);
    }
  }

  lemma CleanBeforeClaim(life: seq<Session>)
    requires LegalLife(FRESH, life) && forall k | 0 <= k < |life| :: AllCareful(life[k].turns)
    ensures var s := AfterLife(FRESH, life);
            && (forall k | 0 <= k < |s.claims| :: s.claims[k] == NOTHING_LEFT)
            && !s.engine.together
  {
    CarefulLifeDoesNotSlip(FRESH, life);
    CleanBeforeClaimIff(life);
  }

  // ---------------------------------------------------------------- lives that slip

  const UNUSED := PhaseLuck(true, Created, Attached(true, false, false), Stopping(true, true), None)

  const SWEPT := Sweep(false, Removes, Removes, None)

  /** An evaluation whose agent is stopped in some way, with the rest given. */
  function Ended(agent: PhaseLuck, saving: Saving, sweep: Sweep, usage: Metrics): Luck {
    Luck(true, Ready, false, true, Renewals(true, true, true, true), agent, None, false, UNUSED, None, false, true,
         usage, "", "", "", false, saving, sweep, false)
  }

  /** Docker stops answering while the container runs, and then the disk is full. */
  const STUCK := PhaseLuck(false, Created, Attached(false, false, true), Stopping(false, false), None)

  function Losing(usage: Metrics): Luck { Ended(STUCK, NotOpened, SWEPT, usage) }

  /** The command that stops the container cannot be run, nor can the one that removes it. */
  const UNSTOPPED := PhaseLuck(false, Created, Attached(false, true, false), StopRaises(false), None)

  function Unswept(usage: Metrics): Luck {
    Ended(UNSTOPPED, Saved, Sweep(false, Raises(false, true), Removes, None), usage)
  }

  function ClaimOf(job: nat, order: seq<nat>, answers: seq<ReplayLuck>, l: Luck): Turn {
    Turn(order, answers, false, false, true, Grants(job), true, l, true, [StatusFails, StatusFails, StatusFails])
  }

  /** Two jobs one after another in one process. */
  function TwoJobs(first: Luck, order: seq<nat>, second: Luck): seq<Session> {
    [Session([], [], [], [], [ClaimOf(0, [], [], first),
                              ClaimOf(1, order, seq(|order|, _ => Receipts(true, true)), second)])]
  }

  /** The evaluation ends in an ordinary exception with the agent's container running. */
  ghost predicate RunsOn(l: Luck) {
    forall e: Engine, job: nat | Container(job, AgentPhase) !in e.running ::
         Ending(e, job, l) == Some(Ordinary)
             && AfterEvaluation(e, job, l) == Launch(Make(e, Container(job, AgentPhase)), Container(job, AgentPhase))
  }

  lemma LosingRunsOn(usage: Metrics)
    ensures RunsOn(Losing(usage))
  {
  }

  lemma UnsweptRunsOn(usage: Metrics)
    ensures RunsOn(Unswept(usage))
  {
    forall e: Engine, job: nat | Container(job, AgentPhase) !in e.running
      ensures AfterEvaluation(e, job, Unswept(usage))
              == Launch(Make(e, Container(job, AgentPhase)), Container(job, AgentPhase))
    {
      assert Removed(job, Tracked(e, job, Unswept(usage)), Unswept(usage).sweep) == {};
    }
  }

  lemma RunningTwice(first: Luck, order: seq<nat>, second: Luck)
    requires RunsOn(first) && RunsOn(second)
    requires order == if first.saving.Saved? then [0] else []
    requires first.saving.Saved? || first.saving.NotOpened?
    ensures var life := TwoJobs(first, order, second);
            && LegalLife(FRESH, life)
            && var s := AfterLife(FRESH, life);
            && |s.claims| == 2
            && s.claims[1].running == {Container(0, AgentPhase)}
            && s.engine.together && !s.stopped
  {
    var v := TwoJobs(first, order, second)[0];
    var s0 := AfterStart(FRESH, v);
    assert s0 == FRESH.(stopped := false) && UnsettledJobs(s0.files) == {};
    FirstTurn(s0, v.turns[0], order, first);
    var s1 := AfterTurn(s0, v.turns[0]);
    assert s1.engine.running == {Container(0, AgentPhase)};
    SecondTurn(s1, v.turns[1], order, second);
    assert Container(0, AgentPhase) in s1.engine.running - {Container(1, AgentPhase)};
    TwoTurns(v);
  }

  lemma TwoTurns(v: Session)
    requires LegalStart(FRESH, v) && |v.turns| == 2
    requires var s0 := AfterStart(FRESH, v);
             !s0.stopped && LegalTurn(s0, v.turns[0])
             && !AfterTurn(s0, v.turns[0]).stopped && LegalTurn(AfterTurn(s0, v.turns[0]), v.turns[1])
    ensures LegalLife(FRESH, [v])
    ensures AfterLife(FRESH, [v]) == AfterTurn(AfterTurn(AfterStart(FRESH, v), v.turns[0]), v.turns[1])
  {
    var s0 := AfterStart(FRESH, v);
    var s1 := AfterTurn(s0, v.turns[0]);
    var s2 := AfterTurn(s1, v.turns[1]);
    assert v.turns[1..] == [v.turns[1]] && [v.turns[1]][1..] == [] && [v][1..] == [];
    assert LegalTurns(s2, []) && AfterTurns(s2, []) == s2;
    assert LegalTurns(s1, [v.turns[1]]) && AfterTurns(s1, [v.turns[1]]) == s2;
    assert LegalTurns(s0, v.turns) && AfterTurns(s0, v.turns) == s2;
    assert LegalLife(s2, []) && AfterLife(s2, []) == s2;
  }

  lemma FirstTurn(s: Local, t: Turn, order: seq<nat>, l: Luck)
    requires s == FRESH.(stopped := false) && RunsOn(l) && t == ClaimOf(0, [], [], l)
    requires l.saving.Saved? || l.saving.NotOpened?
    requires order == if l.saving.Saved? then [0] else []
    ensures var s' := AfterTurn(s, t);
            && |s'.claims| == 1 && s'.workspaces == {0} && !s'.stopped
            && s'.engine == Launch(Make(s.engine, Container(0, AgentPhase)), Container(0, AgentPhase))
            && Lists(order, UnsettledJobs(s'.files)) && (order == [0] ==> 0 in s'.files && s'.files[0].Pending?)
  {
    var s' := AfterTurn(s, t);
    assert Container(0, AgentPhase) !in s.engine.running;
    if l.saving.Saved? { assert UnsettledJobs(s'.files) == {0}; } else { assert UnsettledJobs(s'.files) == {}; }
  }

  lemma SecondTurn(s: Local, t: Turn, order: seq<nat>, l: Luck)
    requires RunsOn(l) && t == ClaimOf(1, order, seq(|order|, _ => Receipts(true, true)), l)
    requires order == [] || (order == [0] && 0 in s.files && s.files[0].Pending?)
    requires 1 !in s.workspaces && Container(1, AgentPhase) !in s.engine.running && !s.stopped
    ensures var s' := AfterTurn(s, t);
            && |s'.claims| == |s.claims| + 1 && s'.claims[|s.claims|].running == s.engine.running
            && s'.engine == Launch(Make(s.engine, Container(1, AgentPhase)), Container(1, AgentPhase)) && !s'.stopped
  {
    if order == [0] {
      assert order[1..] == [] && t.answers[1..] == [];
      assert Replayed(s.files, order, t.answers).1;
    }
  }

  /** The save is needed: when the result cannot be written after a failed clean-up, the
      write's exception takes the place of the one that would have stopped the worker. It
      claims again beside a running container, and then two run together. */
  lemma LostResultHidesFailedCleanup(usage: Metrics)
    ensures var life := TwoJobs(Losing(usage), [], Losing(usage));
            && LegalLife(FRESH, life)
            && var s := AfterLife(FRESH, life);
            && |s.claims| == 2 && s.claims[1].running == {Container(0, AgentPhase)} && s.engine.together && !s.stopped
  {
    LosingRunsOn(usage);
    RunningTwice(Losing(usage), [], Losing(usage));
  }

  /** So are the commands: when Docker's client cannot be run, every result may be saved,
      and even be delivered, and the worker still claims beside a running container. */
  lemma UnrunnableCommandsHideLeftover(usage: Metrics)
    ensures var life := TwoJobs(Unswept(usage), [0], Unswept(usage));
            && LegalLife(FRESH, life)
            && var s := AfterLife(FRESH, life);
            && |s.claims| == 2 && s.claims[1].running == {Container(0, AgentPhase)} && s.engine.together && !s.stopped
  {
    UnsweptRunsOn(usage);
    RunningTwice(Unswept(usage), [0], Unswept(usage));
  }
}
