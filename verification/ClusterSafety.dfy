/** Main results about every run of the cluster: no double execution, sound client
    deadlines, and exactly one accepted result per job across crashes. */
module ClusterSafety {
  import opened Records
  import opened Server
  import opened LeaseRules
  import opened Cluster
  import opened ClusterInvariant
  import opened ServerProgress
  import SI = ServerInvariant
  import SR = ServerRuns

  /** The client's share of the lease, plus the time it needs to stop, fits into the
      server's lease even on the slowest worker clock. */
  predicate StopsInTime(z: Setting) {
    z.drift * (Lease(z) * SAFE_SHARE + z.grace) <= Lease(z)
  }

  /** While a sandbox may run, the server's lease has not expired. */
  lemma ExecutionIsCovered(z: Setting, s: State, w: nat, j: nat)
    requires ValidSetting(z) && Inv(z, s) && Executing(z, s, w, j) && StopsInTime(z) && z.cleans
    ensures j < |s.tables.jobs| && s.tables.jobs[j].expires.Some? && s.clock < s.tables.jobs[j].expires.value
  {
    var n := s.nodes[w];
    assert NodeOk(z, s, w, n);
    var used := n.clock - (n.process.keeper.deadline - Lease(z) * SAFE_SHARE);
    assert s.tables.jobs[j].expires.value - s.clock >= Lease(z) - z.drift * used;
    ScaledLess(z.drift, used, Lease(z) * SAFE_SHARE + z.grace);
  }

  lemma ScaledLess(k: real, a: real, b: real)
    requires k > 0.0 && a < b
    ensures k * a < k * b
  {
  }

  /** A job being executed is the unfinished attempt of its submission. */
  lemma ExecutedJobIsUnfinished(z: Setting, s: State, w: nat, j: nat)
    requires ValidSetting(z) && Inv(z, s) && Executing(z, s, w, j) && StopsInTime(z) && z.cleans
    ensures j < |s.tables.jobs| && s.tables.jobs[j].status.Active() && s.tables.jobs[j].worker == Some(w)
  {
    ExecutionIsCovered(z, s, w, j);
    var n, t := s.nodes[w], s.tables;
    assert NodeOk(z, s, w, n);
    assert SI.RowOk(z.server, t, t.jobs[j]);
    assert ReapedBefore(t.jobs[j], s.clock);
    if Evaluated(t, j) {
      EvaluationWasSent(z, s, w, j);
    }
  }

  /** An evaluated job's worker has written its result file and sent it. */
  lemma EvaluationWasSent(z: Setting, s: State, w: nat, j: nat)
    requires Inv(z, s) && Evaluated(s.tables, j) && j < |s.tables.jobs| && s.tables.jobs[j].worker == Some(w)
    ensures w < |s.nodes| && j in s.nodes[w].disk && !s.nodes[w].disk[j].evidence.NoEvidence? && ResultSent(s, w, j)
  {
  }

  lemma NoDoubleExecutionInState(z: Setting, s: State)
    requires ValidSetting(z) && Inv(z, s)
    requires (StopsInTime(z) && z.cleans) || z.server.maxAttempts == 1
    ensures NoDoubleExecution(z, s)
  {
    var t := s.tables;
    forall v: nat, w: nat, i: nat, j: nat | Executing(z, s, v, i) && Executing(z, s, w, j)
      && i < |t.jobs| && j < |t.jobs| && t.jobs[i].submission == t.jobs[j].submission
      ensures v == w && i == j
    {
      if StopsInTime(z) && z.cleans {
        ExecutedJobIsUnfinished(z, s, v, i);
        ExecutedJobIsUnfinished(z, s, w, j);
        SR.OneUnfinishedAttempt(z.server, t, i, j);
      } else {
        SingleAttempt(z.server, t, i, j);
        ExecutedJobIsOwned(z, s, v, i);
        ExecutedJobIsOwned(z, s, w, j);
      }
    }
  }

  lemma SingleAttempt(c: Config, t: Tables, i: nat, j: nat)
    requires SI.Inv(c, t) && c.maxAttempts == 1 && i < |t.jobs| && j < |t.jobs|
    requires t.jobs[i].submission == t.jobs[j].submission
    ensures i == j
  {
  }

  lemma ExecutedJobIsOwned(z: Setting, s: State, w: nat, j: nat)
    requires NodesOk(z, s) && Executing(z, s, w, j)
    ensures j < |s.tables.jobs| && s.tables.jobs[j].worker == Some(w)
  {
    assert NodeOk(z, s, w, s.nodes[w]);
  }

  lemma LeasedJobIsOwned(z: Setting, s: State, w: nat)
    requires NodesOk(z, s) && w < |s.nodes| && s.nodes[w].process.Leased?
    ensures Presents(s.tables, w, s.nodes[w].process.job, s.nodes[w].process.token)
  {
  }

  /** No double execution: in every state of every run, whatever is delayed, lost,
      repeated or crashed, at most one worker executes a submission, provided that workers
      stop in time and clean up, or that no job is ever retried. */
  lemma NoDoubleExecutionEver(z: Setting, s: State)
    requires ValidSetting(z) && Reachable(z, s)
    requires (StopsInTime(z) && z.cleans) || z.server.maxAttempts == 1
    ensures NoDoubleExecution(z, s)
  {
    ReachableInv(z, s);
    NoDoubleExecutionInState(z, s);
  }

  /** What each move makes of a lease while it lasts: a refused renewal, a signal, and the
      deadline, when the watchdog or an acknowledgment meets it, cancel it, and nothing else
      does; and only an acknowledgment in time moves the deadline, to 0.75 of the lease after
      the renewal was sent. */
  lemma LeaseMovesIff(z: Setting, s: State, w: nat, m: Move)
    requires ValidSetting(z) && Enabled(z, s, AtNode(w, m)) && s.nodes[w].process.Leased?
    requires Next(z, s, AtNode(w, m)).nodes[w].process.Leased?
    ensures var n, p' := s.nodes[w], Next(z, s, AtNode(w, m)).nodes[w].process;
            var k := n.process.keeper;
            && p'.job == n.process.job && p'.token == n.process.token
            && (p'.keeper.cancelled <==>
                  || k.cancelled || m == RenewalRefused || m == Signal
                  || ((m == Watchdog || m == RenewalAcknowledged) && n.clock >= k.deadline))
            && p'.keeper.deadline ==
                 (if m == RenewalAcknowledged && !k.cancelled && n.clock < k.deadline
                  then n.process.renewal.value.sentAt + 0.75 * Lease(z) else k.deadline)
  {
  }

  /** Calls respect the lease: a job heartbeat is sent only for the job of a lease that is
      neither cancelled nor past its deadline, a result only while its lease is not cancelled
      or by a replay, and a claim only with no result pending. */
  lemma CallsRespectLease(z: Setting, s: State, w: nat, m: Move)
    requires Enabled(z, s, AtNode(w, m)) && |Next(z, s, AtNode(w, m)).calls| > |s.calls|
    ensures var n := s.nodes[w];
            var q := Next(z, s, AtNode(w, m)).calls[|s.calls|].request;
            && q.worker == w
            && (q.JobBeat? ==>
                  && n.process.Leased? && q.job == n.process.job && q.token == n.process.token
                  && !n.process.keeper.cancelled && n.clock < n.process.keeper.deadline && n.process.renewal == None)
            && (q.SendResult? ==>
                  && q.job in n.disk && n.disk[q.job].evidence == Pending(q.token, q.report)
                  && ((n.process.Leased? && n.process.job == q.job && !n.process.keeper.cancelled)
                      || n.process == Idle))
            && (q.ClaimJob? ==> n.process == Idle && forall j | j in n.disk :: !n.disk[j].evidence.Pending?)
  {
  }

  /** The 0.75 factor: with sandboxes that stop at the deadline a clock ratio up to
      4/3 is safe; with equal clocks sandboxes may take a quarter of the lease to stop. */
  lemma SafeClockRatios(z: Setting)
    requires ValidSetting(z)
    ensures z.grace == 0.0 && z.drift <= 4.0 / 3.0 ==> StopsInTime(z)
    ensures z.drift == 1.0 && z.grace <= Lease(z) / 4.0 ==> StopsInTime(z)
    ensures z.grace == 0.0 && z.drift > 4.0 / 3.0 ==> !StopsInTime(z)
  {
    var x := Lease(z) * SAFE_SHARE;
    assert 4.0 / 3.0 * x == Lease(z);
    if z.drift > 4.0 / 3.0 {
      ScaledLess(x, 4.0 / 3.0, z.drift);
    } else if z.drift < 4.0 / 3.0 {
      ScaledLess(x, z.drift, 4.0 / 3.0);
    }
  }

  // ---------------------------------------------------------------- client deadlines

  /** Deadline soundness: once the first renewal is acknowledged, the time the client
      allows itself, stretched by any drift, plus a quarter lease (at equal rates) is
      within what the server still grants. */
  lemma DeadlineIsSound(z: Setting, s: State, w: nat)
    requires ValidSetting(z) && Inv(z, s) && w < |s.nodes|
    requires s.nodes[w].process.Leased? && !s.nodes[w].process.stage.Entering?
    ensures var p := s.nodes[w].process;
            && p.job < |s.tables.jobs| && s.tables.jobs[p.job].expires.Some?
            && var left := p.keeper.deadline - s.nodes[w].clock;
            && var granted := s.tables.jobs[p.job].expires.value - s.clock;
            && (z.drift == 1.0 ==> left + Lease(z) / 4.0 <= granted)
            && (z.drift <= 4.0 / 3.0 && left >= 0.0 ==> 0.0 <= granted)
            && (z.drift <= 4.0 / 3.0 && left > 0.0 ==> 0.0 < granted)
  {
    var n := s.nodes[w];
    assert NodeOk(z, s, w, n);
    var p := n.process;
    var left := p.keeper.deadline - n.clock;
    var used := Lease(z) * SAFE_SHARE - left;
    var granted := s.tables.jobs[p.job].expires.value - s.clock;
    assert n.clock - (p.keeper.deadline - Lease(z) * SAFE_SHARE) == used;
    assert granted >= Lease(z) - z.drift * used;
    if z.drift <= 4.0 / 3.0 && left >= 0.0 {
      if used > 0.0 {
        AtMostScaled(used, z.drift, 4.0 / 3.0);
        assert z.drift * used <= 4.0 / 3.0 * used == Lease(z) - 4.0 / 3.0 * left;
      } else {
        AtMostScaled(z.drift, used, 0.0);
      }
    }
  }

  lemma AtMostScaled(k: real, a: real, b: real)
    requires k > 0.0 && a <= b
    ensures k * a <= k * b
  {
  }

  /** No sandbox ever runs on the constructor's deadline: execution starts only after
      a renewal was acknowledged. */
  lemma ExecutionFollowsRenewal(z: Setting, s: State, w: nat, m: Move)
    requires ValidSetting(z) && Inv(z, s) && Enabled(z, s, AtNode(w, m))
    requires !s.nodes[w].process.Leased? || s.nodes[w].process.stage.Entering?
    requires Next(z, s, AtNode(w, m)).nodes[w].process.Leased?
    ensures var s' := Next(z, s, AtNode(w, m));
            var p := s'.nodes[w].process;
            p.stage.Entering? || (m.RenewalAcknowledged? && p.stage.Entered?
                                  && Covered(z, s', s'.nodes[w], p.job, p.keeper))
  {
    StepKeepsInv(z, s, AtNode(w, m));
    var s' := Next(z, s, AtNode(w, m));
    assert NodeOk(z, s', w, s'.nodes[w]);
  }

  /** Within one lease the deadline never moves back and a cancelled lease is never revived. */
  lemma LeaseMovesOnward(z: Setting, s: State, a: Action, w: nat)
    requires NodesOk(z, s) && Enabled(z, s, a) && w < |s.nodes|
    requires var s' := Next(z, s, a);
             s.nodes[w].process.Leased? && s'.nodes[w].process.Leased?
    ensures Onward(s.nodes[w].process.keeper, Next(z, s, a).nodes[w].process.keeper)
  {
    assert NodeOk(z, s, w, s.nodes[w]);
    if a.AtNode? && a.w == w { KeeperMovesOnward(z, s, w, a.move); }
  }

  lemma KeeperMovesOnward(z: Setting, s: State, w: nat, m: Move)
    requires w < |s.nodes| && CanMove(s, s.nodes[w], m) && ProcessOk(z, s, w, s.nodes[w])
    requires s.nodes[w].process.Leased? && Moved(z, s, s.nodes[w], m, |s.calls|).process.Leased?
    ensures Onward(s.nodes[w].process.keeper, Moved(z, s, s.nodes[w], m, |s.calls|).process.keeper)
  {
  }

  // ---------------------------------------------------------------- exactly once

  predicate HasFile(s: State, w: nat, j: nat) { w < |s.nodes| && j in s.nodes[w].disk }

  /** Exactly-once results, across crashes at any point. */
  ghost predicate ExactlyOnce(s: State) {
    // A job has at most one evaluation, and it is the job's own result file.
    && (forall d, e | 0 <= d < |s.tables.evaluations| && 0 <= e < |s.tables.evaluations| ::
          s.tables.evaluations[d].job == s.tables.evaluations[e].job ==> d == e)
    && (forall e | 0 <= e < |s.tables.evaluations| ::
          var v := s.tables.evaluations[e];
          && HasFile(s, v.worker, v.job)
          && ReportIn(s.nodes[v.worker].disk[v.job].evidence) == Some(v.report))
    // result.accepted.json: the evaluation exists and the receipt naming it was saved.
    && (forall w: nat, j: nat | HasFile(s, w, j) && s.nodes[w].disk[j].evidence.Accepted? ::
          && s.nodes[w].disk[j].receipt.Some?
          && EvaluationOf(s.tables, s.nodes[w].disk[j].receipt.value, j)
          && s.tables.evaluations[s.nodes[w].disk[j].receipt.value].report == s.nodes[w].disk[j].evidence.report)
    // result.rejected.json: the result was never committed.
    && (forall w: nat, j: nat | HasFile(s, w, j) && s.nodes[w].disk[j].evidence.Rejected? :: !Evaluated(s.tables, j))
  }

  lemma ExactlyOnceEver(z: Setting, s: State)
    requires ValidSetting(z) && Reachable(z, s)
    ensures ExactlyOnce(s)
  {
    ReachableInv(z, s);
    forall e | 0 <= e < |s.tables.evaluations|
      ensures HasFile(s, s.tables.evaluations[e].worker, s.tables.evaluations[e].job)
           && ReportIn(s.nodes[s.tables.evaluations[e].worker].disk[s.tables.evaluations[e].job].evidence)
              == Some(s.tables.evaluations[e].report)
    {
      assert EvaluationKnown(s, s.tables.evaluations[e]);
    }
    forall w: nat, j: nat | HasFile(s, w, j)
      ensures s.nodes[w].disk[j].evidence.Rejected? ==> !Evaluated(s.tables, j)
      ensures s.nodes[w].disk[j].evidence.Accepted? ==>
                && s.nodes[w].disk[j].receipt.Some?
                && EvaluationOf(s.tables, s.nodes[w].disk[j].receipt.value, j)
                && s.tables.evaluations[s.nodes[w].disk[j].receipt.value].report == s.nodes[w].disk[j].evidence.report
    {
      var n := s.nodes[w];
      assert NodeOk(z, s, w, n);
      assert FolderOk(s.tables, w, j, n.disk[j]);
      if n.disk[j].evidence.Accepted? {
        var v := s.tables.evaluations[n.disk[j].receipt.value];
        assert SI.EvaluationOk(s.tables, v);
        assert EvaluationKnown(s, v);
      }
    }
  }

  lemma TablesKept(z: Setting, s: State, a: Action)
    requires ValidSetting(z) && TablesOk(z, s) && Enabled(z, s, a)
    ensures a.Serve? || a.Deliver? ==> Kept(s.tables, Next(z, s, a).tables)
    ensures !a.Serve? && !a.Deliver? ==> Next(z, s, a).tables == s.tables
  {
    match a
    case Serve(op) => StepKeeps(z.server, s.tables, op, s.clock);
    case Deliver(call, env) => StepKeeps(z.server, s.tables, OpRequest(s.calls[call].request, env), s.clock);
    case _ =>
  }

  lemma RejectedIsNotEvaluated(z: Setting, s: State, a: Action, w: nat, j: nat)
    requires ValidSetting(z) && TablesOk(z, s) && Enabled(z, s, a)
    requires HasFile(s, w, j) && s.nodes[w].disk[j].evidence.Rejected?
    requires FolderOk(s.tables, w, j, s.nodes[w].disk[j])
    ensures !Evaluated(s.tables, j) && !Evaluated(Next(z, s, a).tables, j)
  {
    TablesKept(z, s, a);
    if a.Serve? || a.Deliver? { FolderKept(s.tables, Next(z, s, a).tables, w, j, s.nodes[w].disk[j]); }
  }

  /** A rejected result stays rejected: no later step commits it. */
  lemma RejectionIsFinal(z: Setting, s: State, a: Action, w: nat, j: nat)
    requires ValidSetting(z) && Inv(z, s) && Enabled(z, s, a)
    requires HasFile(s, w, j) && s.nodes[w].disk[j].evidence.Rejected?
    ensures !Evaluated(s.tables, j) && !Evaluated(Next(z, s, a).tables, j)
    ensures HasFile(Next(z, s, a), w, j) && Next(z, s, a).nodes[w].disk[j].evidence == s.nodes[w].disk[j].evidence
  {
    assert NodeOk(z, s, w, s.nodes[w]);
    RejectedIsNotEvaluated(z, s, a, w, j);
    if a.AtNode? && a.w == w {
      RejectedFileStays(z, s, w, a.move, j);
    }
  }

  lemma RejectedFileStays(z: Setting, s: State, w: nat, m: Move, j: nat)
    requires w < |s.nodes| && CanMove(s, s.nodes[w], m) && ProcessOk(z, s, w, s.nodes[w])
    requires j in s.nodes[w].disk && s.nodes[w].disk[j].evidence.Rejected?
    ensures var n' := Moved(z, s, s.nodes[w], m, |s.calls|);
            j in n'.disk && n'.disk[j].evidence == s.nodes[w].disk[j].evidence
  {
    var n, n' := s.nodes[w], Moved(z, s, s.nodes[w], m, |s.calls|);
    if ChangesDisk(m) {
      assert m.BeginEvaluation? || FolderOf(n, m) != j;
    } else {
      assert n'.disk == n.disk;
    }
  }

  /** The workspace of a claimed job is always new, so an evaluation never fails for
      finding its folder in place. */
  lemma WorkspaceIsNew(z: Setting, s: State, w: nat)
    requires Inv(z, s) && w < |s.nodes|
    requires s.nodes[w].process.Leased? && s.nodes[w].process.stage.Entered?
    ensures s.nodes[w].process.job !in s.nodes[w].disk && CanMove(s, s.nodes[w], BeginEvaluation)
  {
  }
}
