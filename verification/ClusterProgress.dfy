/** What can always still happen in the cluster: whatever has been lost, delayed or crashed,
    a worker can come back, settle every result on its disk, and ask for a job again. */
module ClusterProgress {
  import opened Records
  import opened Server
  import opened LeaseRules
  import opened Cluster
  import opened ClusterInvariant
  import opened ClusterLimits
  import opened ServerProgress
  import SI = ServerInvariant
  import SV = ServerReplies

  /** What a folder may become when its result is settled. */
  predicate Settled(f: Folder, f': Folder)
    requires f.evidence.Pending?
  {
    || (f'.evidence == Accepted(f.evidence.token, f.evidence.report) && f'.receipt.Some?)
    || f' == f.(evidence := Rejected(f.evidence.token, f.evidence.report))
  }

  /** The service's answer to a pending result sent again: the receipt of the evaluation that
      the job has then, or a refusal for good if it has none and never will. */
  lemma ReplayIsAnswered(z: Setting, s: State, w: nat, j: nat)
    requires ValidSetting(z) && Reachable(z, s) && w < |s.nodes| && HoldsPending(s.nodes[w], j)
    ensures w < |s.tables.workers| && ConsistentStatus(s.nodes[w].disk[j].evidence.report)
    ensures var f := s.nodes[w].disk[j].evidence;
            var (t', reply) := Handle(z.server, s.tables, SendResult(w, j, f.token, f.report),
                                      Any(s.tables, s.clock), s.clock);
            (reply.Receipt? && EvaluationOf(t', reply.evaluation, j)) || (reply == Error(409) && !Evaluated(t', j))
  {
    ReachableInv(z, s);
    ReachableFacts(z, s);
    assert NodeOk(z, s, w, s.nodes[w]);
    var f := s.nodes[w].disk[j];
    assert FolderOk(s.tables, w, j, f);
    var env := Any(s.tables, s.clock);
    SV.ResultAnswers(z.server, s.tables, w, j, f.evidence.token, f.evidence.report, env, s.clock);
    var (t', reply) := Handle(z.server, s.tables, SendResult(w, j, f.evidence.token, f.evidence.report), env, s.clock);
    assert reply == Receipt(|s.tables.evaluations|) && !Evaluated(s.tables, j) ==>
             EvaluationOf(t', |s.tables.evaluations|, j);
    if reply == Error(409) && Evaluated(t', j) {
      var e: nat :| EvaluationOf(t', e, j);
      assert EvaluationOf(s.tables, e, j);
    }
  }

  /** The request made from a pending file. */
  function Again(n: Node, w: nat, j: nat): Request
    requires HoldsPending(n, j)
  {
    SendResult(w, j, n.disk[j].evidence.token, n.disk[j].evidence.report)
  }

  lemma SendRun(z: Setting, s: State, w: nat, j: nat) returns (actions: seq<Action>, s': State)
    requires w < |s.nodes| && s.nodes[w].process.Idle? && HoldsPending(s.nodes[w], j)
    ensures Reaches(z, s, actions, s')
    ensures s' == s.(nodes := s.nodes[w := At(s.nodes[w], Replaying(j, |s.calls|))],
                     calls := s.calls + [Call(Again(s.nodes[w], w, j), s.clock)])
  {
    actions, s' := MoveOn(z, s, [], s, w, SendReplay(j));
  }

  /** A pending result is sent again and answered. */
  lemma SendAgain(z: Setting, s: State, w: nat, j: nat) returns (actions: seq<Action>, s': State, reply: Reply)
    requires ValidSetting(z) && Reachable(z, s)
    requires w < |s.nodes| && s.nodes[w].process.Idle? && HoldsPending(s.nodes[w], j)
    ensures Reaches(z, s, actions, s')
    ensures s'.nodes == s.nodes[w := At(s.nodes[w], Replaying(j, |s.calls|))] && (|s.calls|, reply) in s'.replies
    ensures if reply.Receipt? then EvaluationOf(s'.tables, reply.evaluation, j)
            else reply == Error(409) && !Evaluated(s'.tables, j)
  {
    ReplayIsAnswered(z, s, w, j);
    ReachableFacts(z, s);
    var a, s1 := SendRun(z, s, w, j);
    var q, env := Again(s.nodes[w], w, j), Any(s.tables, s.clock);
    assert s1.calls[|s1.calls| - 1] == Call(q, s.clock) && |s1.calls| - 1 == |s.calls|;
    actions, s' := DeliverOn(z, s, a, s1, env);
    reply := Handle(z.server, s.tables, q, env, s.clock).1;
  }

  /** One more move that sends nothing and leaves the node as `n`. */
  lemma QuietMoveOn(z: Setting, s: State, before: seq<Action>, mid: State, w: nat, m: Move, n: Node)
    returns (actions: seq<Action>, s': State)
    requires Reaches(z, s, before, mid) && w < |mid.nodes| && CanMove(mid, mid.nodes[w], m)
    requires Sent(mid.nodes[w], w, m, mid).None? && !m.Abandon? && n == Moved(z, mid, mid.nodes[w], m, |mid.calls|)
    ensures Reaches(z, s, actions, s') && s' == mid.(nodes := mid.nodes[w := n])
  {
    actions, s' := MoveOn(z, s, before, mid, w, m);
  }

  /** A receipt is saved and then the result filed as accepted. */
  lemma FileReceipt(z: Setting, s: State, before: seq<Action>, mid: State, w: nat, j: nat, call: nat, e: nat)
    returns (actions: seq<Action>, s': State)
    requires Reaches(z, s, before, mid) && w < |mid.nodes| && mid.nodes[w].process == Replaying(j, call)
    requires HoldsPending(mid.nodes[w], j) && (call, Receipt(e)) in mid.replies
    ensures Reaches(z, s, actions, s')
    ensures s' == mid.(nodes := mid.nodes[w := Receipted(mid.nodes[w], j, e)])
  {
    var n := mid.nodes[w];
    var a, s1 := QuietMoveOn(z, s, before, mid, w, TakeReplayReceipt(e), At(n, Replayed(j, e, false)));
    var s2;
    a, s2 := SaveReceipt(z, s, a, s1, w, j, e);
    actions, s' := FileSaved(z, s, a, s2, w, j, e);
    assert Receipted(s2.nodes[w], j, e) == Receipted(n, j, e);
    assert s'.nodes == mid.nodes[w := Receipted(n, j, e)];
  }

  lemma SaveReceipt(z: Setting, s: State, before: seq<Action>, mid: State, w: nat, j: nat, e: nat)
    returns (actions: seq<Action>, s': State)
    requires Reaches(z, s, before, mid) && w < |mid.nodes| && mid.nodes[w].process == Replayed(j, e, false)
    requires HoldsPending(mid.nodes[w], j)
    ensures Reaches(z, s, actions, s')
    ensures var n := mid.nodes[w];
            s' == mid.(nodes := mid.nodes[w := At(WithFolder(n, j, n.disk[j].(receipt := Some(e))),
                                                  Replayed(j, e, true))])
  {
    var n := mid.nodes[w];
    actions, s' := QuietMoveOn(z, s, before, mid, w, WriteReceipt,
                               At(WithFolder(n, j, n.disk[j].(receipt := Some(e))), Replayed(j, e, true)));
  }

  /** The node with the result of `j` filed as accepted. */
  function Receipted(n: Node, j: nat, e: nat): Node
    requires HoldsPending(n, j)
  {
    At(WithFolder(n, j, Folder(Accepted(n.disk[j].evidence.token, n.disk[j].evidence.report), Some(e))), Idle)
  }

  lemma FileSaved(z: Setting, s: State, before: seq<Action>, mid: State, w: nat, j: nat, e: nat)
    returns (actions: seq<Action>, s': State)
    requires Reaches(z, s, before, mid) && w < |mid.nodes| && mid.nodes[w].process == Replayed(j, e, true)
    requires HoldsPending(mid.nodes[w], j) && mid.nodes[w].disk[j].receipt == Some(e)
    ensures Reaches(z, s, actions, s')
    ensures s' == mid.(nodes := mid.nodes[w := Receipted(mid.nodes[w], j, e)])
  {
    actions, s' := QuietMoveOn(z, s, before, mid, w, FileAccepted, Receipted(mid.nodes[w], j, e));
  }

  /** The node with the result of `j` filed as rejected. */
  function GivenUp(n: Node, j: nat): Node
    requires HoldsPending(n, j)
  {
    var f := n.disk[j];
    At(WithFolder(n, j, f.(evidence := Rejected(f.evidence.token, f.evidence.report))), Idle)
  }

  lemma FileRefusal(z: Setting, s: State, before: seq<Action>, mid: State, w: nat, j: nat, call: nat)
    returns (actions: seq<Action>, s': State)
    requires Reaches(z, s, before, mid) && w < |mid.nodes| && mid.nodes[w].process == Replaying(j, call)
    requires HoldsPending(mid.nodes[w], j) && (call, Error(409)) in mid.replies
    ensures Reaches(z, s, actions, s')
    ensures s' == mid.(nodes := mid.nodes[w := GivenUp(mid.nodes[w], j)])
  {
    var n := mid.nodes[w];
    var a, s1 := QuietMoveOn(z, s, before, mid, w, TakeRejection(409), At(n, Rejecting(j)));
    actions, s' := QuietMoveOn(z, s, a, s1, w, FileRejected, GivenUp(n, j));
    assert s'.nodes == mid.nodes[w := GivenUp(n, j)];
  }

  /** A worker that is idle can settle any of its pending results at once: it is answered by a
      receipt, which it saves before it files the result, or by a refusal for good. */
  lemma ReplayRun(z: Setting, s: State, w: nat, j: nat) returns (actions: seq<Action>, s': State)
    requires ValidSetting(z) && Reachable(z, s)
    requires w < |s.nodes| && s.nodes[w].process.Idle? && HoldsPending(s.nodes[w], j)
    ensures Reaches(z, s, actions, s') && Reachable(z, s')
    ensures |s'.nodes| == |s.nodes| && s'.nodes[w].process.Idle? && s'.nodes[w].left == s.nodes[w].left
    ensures s'.nodes[w].disk.Keys == s.nodes[w].disk.Keys && Settled(s.nodes[w].disk[j], s'.nodes[w].disk[j])
    ensures forall i | i in s.nodes[w].disk && i != j :: s'.nodes[w].disk[i] == s.nodes[w].disk[i]
    ensures s'.nodes[w].disk[j].evidence.Accepted? <==> Evaluated(s'.tables, j)
  {
    var a, s1, reply := SendAgain(z, s, w, j);
    if reply.Receipt? {
      actions, s' := FileReceipt(z, s, a, s1, w, j, |s.calls|, reply.evaluation);
    } else {
      actions, s' := FileRefusal(z, s, a, s1, w, j, |s.calls|);
    }
    ReachableOn(z, s, actions, s');
  }

  function PendingJobs(n: Node): set<nat> { set j | j in n.disk && n.disk[j].evidence.Pending? }

  /** An idle worker can settle everything. */
  lemma {:induction false} SettleAll(z: Setting, s: State, w: nat) returns (actions: seq<Action>, s': State)
    requires ValidSetting(z) && Reachable(z, s) && w < |s.nodes| && s.nodes[w].process.Idle?
    ensures Reaches(z, s, actions, s') && Reachable(z, s')
    ensures |s'.nodes| == |s.nodes| && s'.nodes[w].process.Idle? && s'.nodes[w].left == s.nodes[w].left
    ensures PendingJobs(s'.nodes[w]) == {}
    ensures s'.nodes[w].disk.Keys == s.nodes[w].disk.Keys
    ensures forall j | j in PendingJobs(s.nodes[w]) :: Settled(s.nodes[w].disk[j], s'.nodes[w].disk[j])
    ensures forall j | j in s.nodes[w].disk && j !in PendingJobs(s.nodes[w]) ::
              s'.nodes[w].disk[j] == s.nodes[w].disk[j]
    decreases |PendingJobs(s.nodes[w])|
  {
    var pending := PendingJobs(s.nodes[w]);
    if pending == {} {
      return [], s;
    }
    var j :| j in pending;
    var a, s1 := ReplayRun(z, s, w, j);
    assert PendingJobs(s1.nodes[w]) == pending - {j};
    var b;
    b, s' := SettleAll(z, s1, w);
    actions := a + b;
    PathsJoin(z, s, a, s1, b, s');
  }

  /** Nothing is ever stuck: from every reachable state every worker, whatever it was doing, can
      be restarted and come to ask for a job again with every result on its disk settled, and
      none of them lost or changed. */
  lemma WorkerComesBack(z: Setting, s: State, w: nat) returns (actions: seq<Action>, s': State)
    requires ValidSetting(z) && Reachable(z, s) && w < |s.nodes|
    ensures Reaches(z, s, actions, s') && Reachable(z, s')
    ensures |s'.nodes| == |s.nodes| && Enabled(z, s', AtNode(w, SendClaim)) && s'.nodes[w].left == {}
    ensures s'.nodes[w].disk.Keys == s.nodes[w].disk.Keys
    ensures forall j | j in PendingJobs(s.nodes[w]) :: Settled(s.nodes[w].disk[j], s'.nodes[w].disk[j])
    ensures forall j | j in s.nodes[w].disk && j !in PendingJobs(s.nodes[w]) ::
              s'.nodes[w].disk[j] == s.nodes[w].disk[j]
  {
    var b, s2 := BackRun(z, s, w);
    var c;
    c, s' := SettleAll(z, s2, w);
    actions := b + c;
    PathsJoin(z, s, b, s2, c, s');
    assert !HasPending(s'.nodes[w]) by { assert forall j | j in s'.nodes[w].disk :: j !in PendingJobs(s'.nodes[w]); }
  }

  lemma BackRun(z: Setting, s: State, w: nat) returns (actions: seq<Action>, s': State)
    requires Reachable(z, s) && w < |s.nodes|
    ensures Reaches(z, s, actions, s') && Reachable(z, s') && |s'.nodes| == |s.nodes|
    ensures s'.nodes[w] == s.nodes[w].(process := Idle, left := {})
  {
    var a, s1 := MoveOn(z, s, [], s, w, Crash);
    actions, s' := MoveOn(z, s, a, s1, w, Restart);
    ReachableOn(z, s, actions, s');
  }

  /** A lost call costs nothing but time: a renewal that is lost may be sent again while the
      lease runs, and an upload while it is not cancelled, in every reachable state. */
  lemma LostCallsAreRepeated(z: Setting, s: State, w: nat, m: Move, event: Event)
    requires ValidSetting(z) && Reachable(z, s) && Enabled(z, s, AtNode(w, m)) && (m.RenewalLost? || m.UploadLost?)
    ensures var s', k := Next(z, s, AtNode(w, m)), s.nodes[w].process.keeper;
            && (m.RenewalLost? && !k.cancelled && s.nodes[w].clock < k.deadline ==>
                  Enabled(z, s', AtNode(w, StartRenewal(event))))
            && (m.UploadLost? && !k.cancelled ==> Enabled(z, s', AtNode(w, SendUpload)))
  {
    ReachableInv(z, s);
    assert NodeOk(z, s, w, s.nodes[w]);
  }

  /** A crash loses nothing that is on disk, and leaves running what ran; only a restart takes
      it away. */
  lemma CrashKeepsDisk(z: Setting, s: State, w: nat)
    requires w < |s.nodes| && Enabled(z, s, AtNode(w, Crash))
    ensures var n, n' := s.nodes[w], Next(z, s, AtNode(w, Crash)).nodes[w];
            && n'.process == Down && n'.disk == n.disk && n'.clock == n.clock
            && (forall j :: j in n'.left <==>
                  || j in n.left
                  || (n.process.Leased? && n.process.job == j && n.process.stage in {Evaluating, Cleaning}))
  {
  }

  // ---------------------------------------------------------------- a whole job

  /** The node while it uploads the result of the job it holds. */
  function UploadingNode(n: Node, report: Report, upload: Option<nat>): Node
    requires n.process.Leased?
  {
    var p := n.process;
    At(WithFolder(n, p.job, Folder(Pending(p.token, report), None)), p.(stage := Uploading(upload)))
  }

  lemma EvaluatedRun(z: Setting, s: State, report: Report) returns (actions: seq<Action>, s': State)
    requires ValidSetting(z) && Solo(z, s) && ConsistentStatus(report)
    ensures Reaches(z, s, actions, s')
    ensures s' == s.(nodes := s.nodes[0 := UploadingNode(s.nodes[0], report, None)])
  {
    var n := s.nodes[0];
    var token := n.process.token;
    var n1 := WithStage(WithFolder(n, 0, Folder(Pending(token, report), None)), Cleaning);
    var a, s1 := QuietMoveOn(z, s, [], s, 0, WriteEvidence(report), n1);
    actions, s' := QuietMoveOn(z, s, a, s1, 0, SandboxGone, WithStage(n1, Uploading(None)));
    assert s'.nodes == s.nodes[0 := UploadingNode(n, report, None)];
  }

  lemma UploadedRun(z: Setting, s: State, before: seq<Action>, mid: State, n: Node, report: Report)
    returns (actions: seq<Action>, s': State)
    requires Reaches(z, s, before, mid) && |mid.nodes| > 0 && n.process.Leased? && n.process.job == 0
    requires mid.nodes[0] == UploadingNode(n, report, None) && !n.process.keeper.cancelled
    requires Past(mid.tables, mid.clock) && ConsistentStatus(report)
    ensures Reaches(z, s, actions, s')
    ensures s'.nodes == mid.nodes[0 := UploadingNode(n, report, Some(|mid.calls|))]
    ensures var q := SendResult(0, 0, n.process.token, report);
            var (t', reply) := Handle(z.server, mid.tables, q, Any(mid.tables, mid.clock), mid.clock);
            s'.tables == t' && (|mid.calls|, reply) in s'.replies
  {
    var a, s1 := SendUploadRun(z, s, before, mid, n, report);
    assert s1.calls[|s1.calls| - 1] == Call(SendResult(0, 0, n.process.token, report), mid.clock);
    actions, s' := DeliverOn(z, s, a, s1, Any(mid.tables, mid.clock));
  }

  lemma SendUploadRun(z: Setting, s: State, before: seq<Action>, mid: State, n: Node, report: Report)
    returns (actions: seq<Action>, s': State)
    requires Reaches(z, s, before, mid) && |mid.nodes| > 0 && n.process.Leased? && n.process.job == 0
    requires mid.nodes[0] == UploadingNode(n, report, None) && !n.process.keeper.cancelled
    ensures Reaches(z, s, actions, s')
    ensures s' == mid.(nodes := mid.nodes[0 := UploadingNode(n, report, Some(|mid.calls|))],
                       calls := mid.calls + [Call(SendResult(0, 0, n.process.token, report), mid.clock)])
  {
    actions, s' := MoveOn(z, s, before, mid, 0, SendUpload);
  }

  /** The node while it files the result, with what it has saved of the receipt. */
  function FilingNode(n: Node, report: Report, e: nat, written: bool): Node
    requires n.process.Leased?
  {
    var p := n.process;
    At(WithFolder(n, p.job, Folder(Pending(p.token, report), if written then Some(e) else None)),
       p.(stage := Filing(e, written)))
  }

  function FiledNode(n: Node, report: Report, e: nat): Node
    requires n.process.Leased?
  {
    At(WithFolder(n, n.process.job, Folder(Accepted(n.process.token, report), Some(e))), Idle)
  }

  lemma TakenRun(z: Setting, s: State, before: seq<Action>, mid: State, n: Node, report: Report, call: nat, e: nat)
    returns (actions: seq<Action>, s': State)
    requires Reaches(z, s, before, mid) && |mid.nodes| > 0 && n.process.Leased?
    requires mid.nodes[0] == UploadingNode(n, report, Some(call)) && (call, Receipt(e)) in mid.replies
    ensures Reaches(z, s, actions, s')
    ensures s' == mid.(nodes := mid.nodes[0 := FilingNode(n, report, e, false)])
  {
    actions, s' := QuietMoveOn(z, s, before, mid, 0, TakeReceipt(e), FilingNode(n, report, e, false));
  }

  lemma SavedRun(z: Setting, s: State, before: seq<Action>, mid: State, n: Node, report: Report, e: nat)
    returns (actions: seq<Action>, s': State)
    requires Reaches(z, s, before, mid) && |mid.nodes| > 0 && n.process.Leased?
    requires mid.nodes[0] == FilingNode(n, report, e, false)
    ensures Reaches(z, s, actions, s')
    ensures s' == mid.(nodes := mid.nodes[0 := FilingNode(n, report, e, true)])
  {
    actions, s' := QuietMoveOn(z, s, before, mid, 0, WriteReceipt, FilingNode(n, report, e, true));
  }

  /** The receipt is saved, and then the result filed as accepted. */
  lemma FiledRun(z: Setting, s: State, before: seq<Action>, mid: State, n: Node, report: Report, call: nat, e: nat)
    returns (actions: seq<Action>, s': State)
    requires Reaches(z, s, before, mid) && |mid.nodes| > 0 && n.process.Leased?
    requires mid.nodes[0] == UploadingNode(n, report, Some(call)) && (call, Receipt(e)) in mid.replies
    ensures Reaches(z, s, actions, s')
    ensures s' == mid.(nodes := mid.nodes[0 := FiledNode(n, report, e)])
  {
    var a, s1 := TakenRun(z, s, before, mid, n, report, call, e);
    var b, s2 := SavedRun(z, s, a, s1, n, report, e);
    actions, s' := QuietMoveOn(z, s, b, s2, 0, FileAccepted, FiledNode(n, report, e));
    assert s'.nodes == mid.nodes[0 := FiledNode(n, report, e)];
  }

  /** Any result can be delivered: for every report there is a run in which a worker claims
      the job, renews its lease, evaluates, uploads, and files the result as accepted, with
      the evaluation and the job's status as reported. */
  lemma DeliveredRun(z: Setting, report: Report) returns (actions: seq<Action>, s: State)
    requires ValidSetting(z) && ConsistentStatus(report)
    ensures Reaches(z, START, actions, s)
    ensures s.tables.evaluations == [Evaluation(0, 0, 0, report)] && |s.tables.jobs| > 0
    ensures s.tables.jobs[0].status == report.status
    ensures |s.nodes| > 0 && s.nodes[0].process.Idle? && 0 in s.nodes[0].disk
    ensures s.nodes[0].disk[0].receipt == Some(0)
    ensures s.nodes[0].disk[0].evidence.Accepted? && s.nodes[0].disk[0].evidence.report == report
  {
    var a, s1 := FirstStarted(z);
    ReachableInv(z, s1);
    ReachableFacts(z, s1);
    var n := s1.nodes[0];
    SV.ResultAnswers(z.server, s1.tables, 0, 0, n.process.token, report, Any(s1.tables, 0.0), 0.0);
    var b, s2 := EvaluatedRun(z, s1, report);
    var c, s3 := UploadedRun(z, s1, b, s2, n, report);
    NothingEvaluatedYet(z, s1);
    StatusIsReported(z, s1, report);
    var d, s4 := FiledRun(z, s1, c, s3, n, report, |s1.calls|, 0);
    PathsJoin(z, START, a, s1, d, s4);
    actions, s := a + d, s4;
  }

  lemma NothingEvaluatedYet(z: Setting, s: State)
    requires Solo(z, s)
    ensures !Evaluated(s.tables, 0)
  {
  }

  lemma StatusIsReported(z: Setting, s: State, report: Report)
    requires ValidSetting(z) && Solo(z, s) && ConsistentStatus(report)
    ensures var q := SendResult(0, 0, s.nodes[0].process.token, report);
            var (t', reply) := Handle(z.server, s.tables, q, Any(s.tables, 0.0), 0.0);
            && reply == Receipt(0) && t'.evaluations == [Evaluation(0, 0, 0, report)]
            && |t'.jobs| > 0 && t'.jobs[0].status == report.status
  {
    ReachableInv(z, s);
    ReachableFacts(z, s);
    NothingEvaluatedYet(z, s);
    SI.ResultKeepsInv(z.server, s.tables, 0, 0, report, Any(s.tables, 0.0), 0.0);
  }
}
