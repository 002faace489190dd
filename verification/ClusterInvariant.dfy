/** The inductive invariant of the cluster and its preservation by every action. */
module ClusterInvariant {
  import opened Records
  import opened Server
  import opened LeaseRules
  import opened Cluster
  import SI = ServerInvariant
  import SR = ServerRuns
  import opened ServerProgress

  predicate IsResultCall(c: Call, w: nat, j: nat) {
    c.request.SendResult? && c.request.worker == w && c.request.job == j
  }

  ghost predicate ResultSent(s: State, w: nat, j: nat) {
    exists i: nat :: i < |s.calls| && IsResultCall(s.calls[i], w, j)
  }

  function ReportIn(e: Evidence): Option<Report> {
    if e.NoEvidence? then None else Some(e.report)
  }

  predicate HoldsPending(n: Node, j: nat) { j in n.disk && n.disk[j].evidence.Pending? }

  ghost predicate CallOk(s: State, c: Call) {
    && c.sentAt <= s.clock
    && c.request.worker < |s.nodes|
    && (c.request.JobBeat? ==> Presents(s.tables, c.request.worker, c.request.job, c.request.token))
    && (c.request.SendResult? ==>
          && Presents(s.tables, c.request.worker, c.request.job, c.request.token)
          && ConsistentStatus(c.request.report)
          && c.request.job in s.nodes[c.request.worker].disk
          && ReportIn(s.nodes[c.request.worker].disk[c.request.job].evidence) == Some(c.request.report))
  }

  ghost predicate ReplyOk(z: Setting, s: State, call: nat, r: Reply) {
    && call < |s.calls|
    && var q := s.calls[call].request;
    && (r.Granted? ==> q.ClaimJob? && Presents(s.tables, q.worker, r.job, r.token))
    && (r.Renewed? ==>
          && q.JobBeat? && q.job < |s.tables.jobs| && s.tables.jobs[q.job].expires.Some?
          && s.tables.jobs[q.job].expires.value >= s.calls[call].sentAt + Lease(z))
    && (r.Receipt? ==> q.SendResult? && EvaluationOf(s.tables, r.evaluation, q.job))
    && (r.Error? && q.SendResult? && r.code in {403, 404, 409} ==> Dead(s.tables, q.worker, q.job))
  }

  ghost predicate FolderOk(t: Tables, w: nat, j: nat, f: Folder) {
    && j < |t.jobs| && t.jobs[j].worker == Some(w)
    && (!f.evidence.NoEvidence? ==> Presents(t, w, j, f.evidence.token) && ConsistentStatus(f.evidence.report))
    && (f.evidence.Rejected? ==> Dead(t, w, j))
    && (f.evidence.Accepted? ==> f.receipt.Some? && EvaluationOf(t, f.receipt.value, j))
  }

  /** The server's lease outlasts the client's deadline, whatever the clocks did. */
  ghost predicate Covered(z: Setting, s: State, n: Node, j: nat, k: Keeper) {
    && j < |s.tables.jobs| && s.tables.jobs[j].expires.Some?
    && s.tables.jobs[j].expires.value - s.clock
       >= Lease(z) - z.drift * (n.clock - (k.deadline - Lease(z) * SAFE_SHARE))
  }

  ghost predicate RenewalOk(z: Setting, s: State, w: nat, n: Node, r: Renewal) {
    && n.process.Leased?
    && r.call < |s.calls|
    && s.calls[r.call].request.JobBeat?
    && s.calls[r.call].request.worker == w
    && s.calls[r.call].request.job == n.process.job
    && r.sentAt <= n.clock
    && n.process.keeper.deadline <= r.sentAt + Lease(z) * SAFE_SHARE
    && s.clock - s.calls[r.call].sentAt <= z.drift * (n.clock - r.sentAt)
  }

  ghost predicate StageOk(z: Setting, s: State, w: nat, n: Node) {
    && n.process.Leased?
    && var p := n.process;
    && (p.stage.Entering? || p.stage.Entered? ==> p.job !in n.disk)
    && (!p.stage.Entering? ==> Covered(z, s, n, p.job, p.keeper))
    && (p.stage.Evaluating? ==> p.job in n.disk && n.disk[p.job].evidence.NoEvidence?)
    && (p.stage.Cleaning? ==> HoldsPending(n, p.job) && !ResultSent(s, w, p.job))
    && (p.stage.Uploading? ==>
          && HoldsPending(n, p.job)
          && (p.stage.upload.Some? ==>
              p.stage.upload.value < |s.calls| && IsResultCall(s.calls[p.stage.upload.value], w, p.job)))
    && (p.stage.Filing? ==> FilingOk(s.tables, n, p.job, p.stage.evaluation, p.stage.written))
  }

  ghost predicate FilingOk(t: Tables, n: Node, j: nat, e: nat, written: bool) {
    && HoldsPending(n, j) && EvaluationOf(t, e, j)
    && (written ==> n.disk[j].receipt == Some(e))
  }

  ghost predicate FoldersOk(t: Tables, w: nat, n: Node) {
    forall j | j in n.disk :: FolderOk(t, w, j, n.disk[j])
  }

  /** What is left behind is the worker's own, and nothing is when every process cleans up. */
  predicate LeftOk(z: Setting, t: Tables, w: nat, n: Node) {
    && (forall j | j in n.left :: j < |t.jobs| && t.jobs[j].worker == Some(w))
    && (z.cleans && !n.process.Down? ==> n.left == {})
  }

  ghost predicate NodeOk(z: Setting, s: State, w: nat, n: Node) {
    FoldersOk(s.tables, w, n) && ProcessOk(z, s, w, n) && LeftOk(z, s.tables, w, n)
  }

  ghost predicate ProcessOk(z: Setting, s: State, w: nat, n: Node) {
       match n.process
       case Down => true
       case Idle => true
       case Claiming(call) =>
         && call < |s.calls| && s.calls[call].request == ClaimJob(w)
         && forall j, token | (call, Granted(j, token)) in s.replies :: j !in n.disk
       case Leased(j, token, k, renewal, _) =>
         && Presents(s.tables, w, j, token)
         && k.deadline <= n.clock + Lease(z) * SAFE_SHARE
         && (renewal.Some? ==> RenewalOk(z, s, w, n, renewal.value))
         && StageOk(z, s, w, n)
       case Replaying(j, call) => HoldsPending(n, j) && call < |s.calls| && IsResultCall(s.calls[call], w, j)
       case Replayed(j, e, saved) => FilingOk(s.tables, n, j, e, saved)
       case Rejecting(j) => HoldsPending(n, j) && Dead(s.tables, w, j)
  }

  /** Every evaluation carries the payload of its worker's one result file. */
  ghost predicate EvaluationKnown(s: State, e: Evaluation) {
    && e.worker < |s.nodes|
    && e.job in s.nodes[e.worker].disk
    && ReportIn(s.nodes[e.worker].disk[e.job].evidence) == Some(e.report)
    && ResultSent(s, e.worker, e.job)
  }

  ghost predicate CallsOk(s: State) { forall i | 0 <= i < |s.calls| :: CallOk(s, s.calls[i]) }

  ghost predicate RepliesOk(z: Setting, s: State) { forall call, r | (call, r) in s.replies :: ReplyOk(z, s, call, r) }

  ghost predicate NodesOk(z: Setting, s: State) { forall w | 0 <= w < |s.nodes| :: NodeOk(z, s, w, s.nodes[w]) }

  ghost predicate AllKnown(s: State) {
    forall e | 0 <= e < |s.tables.evaluations| :: EvaluationKnown(s, s.tables.evaluations[e])
  }

  ghost predicate TablesOk(z: Setting, s: State) {
    SI.Inv(z.server, s.tables) && Past(s.tables, s.clock) && |s.nodes| == |s.tables.workers|
  }

  ghost predicate Inv(z: Setting, s: State) {
    TablesOk(z, s) && CallsOk(s) && RepliesOk(z, s) && NodesOk(z, s) && AllKnown(s)
  }

  lemma StartInv(z: Setting)
    ensures Inv(z, START)
  {
  }

  // ---------------------------------------------------------------- the server moves

  /** What stays true of the tables for everybody else. */
  ghost predicate Kept(t: Tables, t': Tables) {
    && Later(t, t')
    && (forall w: nat, j: nat, token: nat :: Presents(t, w, j, token) ==> Presents(t', w, j, token))
    && (forall w: nat, j: nat :: Dead(t, w, j) ==> Dead(t', w, j))
    && (forall i | 0 <= i < |t.jobs| :: t.jobs[i].worker.Some? ==> t'.jobs[i].worker == t.jobs[i].worker)
  }

  lemma StepKeeps(c: Config, t: Tables, op: Op, now: real)
    requires ValidConfig(c) && SI.Inv(c, t) && Legal(c, t, op, now) && Past(t, now)
    ensures Kept(t, Apply(c, t, op, now))
  {
    var t' := Apply(c, t, op, now);
    StepIsLater(c, t, op, now);
    forall i | 0 <= i < |t.jobs|
      ensures t.jobs[i].worker.Some? ==> t'.jobs[i].worker == t.jobs[i].worker && t'.jobs[i].token == t.jobs[i].token
    {
      assert SI.RowOk(c, t, t.jobs[i]);
      assert SR.Evolves(t.jobs[i], t'.jobs[i]);
    }
    forall w: nat, j: nat | Dead(t, w, j) ensures Dead(t', w, j) { StepKeepsDead(c, t, op, now, w, j); }
  }

  lemma FolderKept(t: Tables, t': Tables, w: nat, j: nat, f: Folder)
    requires Kept(t, t') && FolderOk(t, w, j, f)
    ensures FolderOk(t', w, j, f)
  {
  }

  /** A node is unaffected by what the server and the network do. */
  lemma NodeKept(z: Setting, s: State, s': State, w: nat, n: Node)
    requires NodeOk(z, s, w, n) && Kept(s.tables, s'.tables)
    requires s'.clock == s.clock && s'.calls == s.calls
    requires forall call, j: nat, token: nat | (call, Granted(j, token)) in s'.replies ::
               (call, Granted(j, token)) in s.replies || j !in n.disk
    ensures NodeOk(z, s', w, n)
  {
    forall j | j in n.disk
      ensures FolderOk(s'.tables, w, j, n.disk[j])
    {
      FolderKept(s.tables, s'.tables, w, j, n.disk[j]);
    }
    if n.process.Leased? && n.process.stage.Cleaning? {
      assert ResultSent(s', w, n.process.job) == ResultSent(s, w, n.process.job);
    }
  }

  lemma CallKept(s: State, s': State, c: Call)
    requires CallOk(s, c) && Kept(s.tables, s'.tables) && s'.clock == s.clock && s.nodes <= s'.nodes
    ensures CallOk(s', c)
  {
  }

  lemma ReplyKept(z: Setting, s: State, s': State, call: nat, r: Reply)
    requires ReplyOk(z, s, call, r) && Kept(s.tables, s'.tables) && s'.calls == s.calls
    ensures ReplyOk(z, s', call, r)
  {
  }

  lemma KnownKept(s: State, s': State, e: Evaluation)
    requires EvaluationKnown(s, e) && s.nodes <= s'.nodes && s'.calls == s.calls
    ensures EvaluationKnown(s', e)
  {
  }

  lemma ServeKeepsInv(z: Setting, s: State, op: Op)
    requires ValidSetting(z) && Inv(z, s) && Enabled(z, s, Serve(op))
    ensures Inv(z, Next(z, s, Serve(op)))
  {
    var s' := Next(z, s, Serve(op));
    SI.StepKeepsInv(z.server, s.tables, op, s.clock);
    StepKeeps(z.server, s.tables, op, s.clock);
    StepIsLater(z.server, s.tables, op, s.clock);
    ServingEvaluatesNothing(z.server, s.tables, op, s.clock);
    forall i | 0 <= i < |s'.calls| ensures CallOk(s', s'.calls[i]) { CallKept(s, s', s.calls[i]); }
    forall call, r | (call, r) in s'.replies ensures ReplyOk(z, s', call, r) { ReplyKept(z, s, s', call, r); }
    forall w | 0 <= w < |s'.nodes| ensures NodeOk(z, s', w, s'.nodes[w]) {
      if w < |s.nodes| { NodeKept(z, s, s', w, s.nodes[w]); }
    }
    forall e | 0 <= e < |s'.tables.evaluations| ensures EvaluationKnown(s', s'.tables.evaluations[e]) {
      KnownKept(s, s', s.tables.evaluations[e]);
    }
  }

  lemma ServingEvaluatesNothing(c: Config, t: Tables, op: Op, now: real)
    requires Legal(c, t, op, now) && !op.OpRequest?
    ensures Apply(c, t, op, now).evaluations == t.evaluations
    ensures |Apply(c, t, op, now).workers| == |t.workers| + (if op.OpRegister? then 1 else 0)
  {
    match op
    case OpSubmit(agent, problems, stamps) =>
      SubmitKeepsEvaluations(t, agent, problems, stamps);
      SubmitKeepsWorkers(t, agent, problems, stamps);
    case OpReap(expired, at, writeAt, stamps) => SR.ReapExtends(c, t, expired, at, writeAt, stamps);
    case OpRegister =>
    case OpOffline(_, _) =>
  }

  lemma {:induction false} SubmitKeepsWorkers(t: Tables, agent: nat, problems: seq<nat>, stamps: seq<Stamp>)
    requires |problems| == |stamps|
    ensures Commit(t, SubmitAll(t, agent, problems, stamps)).workers == t.workers
    decreases |problems|
  {
    if problems != [] {
      var r := InsertJob(t.(submissions := t.submissions + [Submission(agent, problems[0])]), |t.submissions|, 1,
                         stamps[0]);
      if r.Done? { SubmitKeepsWorkers(r.value, agent, problems[1..], stamps[1..]); }
    }
  }

  /** A reply to a call says the truth when it is given. */
  lemma NewReplyOk(z: Setting, s: State, call: nat, env: Env)
    requires ValidSetting(z) && TablesOk(z, s) && CallsOk(s) && Enabled(z, s, Deliver(call, env))
    ensures var (t', reply) := Handle(z.server, s.tables, s.calls[call].request, env, s.clock);
            && ReplyOk(z, Next(z, s, Deliver(call, env)), call, reply)
            && (reply.Granted? ==> reply.job < |s.tables.jobs| && s.tables.jobs[reply.job].worker.None?)
  {
    var q := s.calls[call].request;
    assert CallOk(s, s.calls[call]);
    var (t', reply) := Handle(z.server, s.tables, q, env, s.clock);
    if q.SendResult? {
      RefusalIsFinal(z.server, s.tables, q, env, s.clock);
    } else {
      SR.AnswerCases(z.server, s.tables, q, env);
      if reply.Granted? {
        assert SI.RowOk(z.server, s.tables, s.tables.jobs[reply.job]);
      }
    }
  }

  lemma DeliverKeepsInv(z: Setting, s: State, call: nat, env: Env)
    requires ValidSetting(z) && Inv(z, s) && Enabled(z, s, Deliver(call, env))
    ensures Inv(z, Next(z, s, Deliver(call, env)))
  {
    var op := OpRequest(s.calls[call].request, env);
    var s' := Next(z, s, Deliver(call, env));
    var reply := Handle(z.server, s.tables, s.calls[call].request, env, s.clock).1;
    assert s'.tables == Apply(z.server, s.tables, op, s.clock);
    SI.StepKeepsInv(z.server, s.tables, op, s.clock);
    StepKeeps(z.server, s.tables, op, s.clock);
    StepIsLater(z.server, s.tables, op, s.clock);
    NewReplyOk(z, s, call, env);
    DeliverKeepsNodes(z, s, s', call, reply);
    forall i | 0 <= i < |s'.calls| ensures CallOk(s', s'.calls[i]) { CallKept(s, s', s.calls[i]); }
    forall c, r | (c, r) in s'.replies ensures ReplyOk(z, s', c, r) {
      if (c, r) in s.replies { ReplyKept(z, s, s', c, r); }
    }
    DeliverKnows(z, s, call, env);
  }

  lemma DeliverKeepsNodes(z: Setting, s: State, s': State, call: nat, reply: Reply)
    requires NodesOk(z, s) && Kept(s.tables, s'.tables)
             && s' == s.(tables := s'.tables, replies := s.replies + {(call, reply)})
    requires reply.Granted? ==> reply.job < |s.tables.jobs| && s.tables.jobs[reply.job].worker.None?
    ensures NodesOk(z, s')
  {
    forall w | 0 <= w < |s'.nodes| ensures NodeOk(z, s', w, s'.nodes[w]) {
      var n := s.nodes[w];
      assert NodeOk(z, s, w, n);
      if reply.Granted? && reply.job in n.disk {
        assert FolderOk(s.tables, w, reply.job, n.disk[reply.job]);
      }
      NodeKept(z, s, s', w, n);
    }
  }

  lemma DeliverKnows(z: Setting, s: State, call: nat, env: Env)
    requires CallsOk(s) && AllKnown(s) && Enabled(z, s, Deliver(call, env))
    ensures var s' := Next(z, s, Deliver(call, env));
            && |s'.tables.workers| == |s.tables.workers|
            && AllKnown(s')
  {
    var s' := Next(z, s, Deliver(call, env));
    var q := s.calls[call].request;
    assert CallOk(s, s.calls[call]);
    SR.AnswerCases(z.server, s.tables, q, env);
    assert q.SendResult? ==> IsResultCall(s.calls[call], q.worker, q.job);
    forall e | 0 <= e < |s'.tables.evaluations| ensures EvaluationKnown(s', s'.tables.evaluations[e]) {
      if e < |s.tables.evaluations| {
        KnownKept(s, s', s.tables.evaluations[e]);
      } else {
        assert IsResultCall(s'.calls[call], q.worker, q.job);
      }
    }
  }

  // ---------------------------------------------------------------- time passes

  /** Only clocks moved, and forward. */
  ghost predicate OnlyTime(s: State, s': State) {
    && s' == s.(clock := s'.clock, nodes := s'.nodes)
    && s.clock <= s'.clock
    && |s'.nodes| == |s.nodes|
    && forall w | 0 <= w < |s.nodes| :: s'.nodes[w] == s.nodes[w].(clock := s'.nodes[w].clock)
  }

  lemma TickKeepsInv(z: Setting, s: State, server: real, local: seq<real>)
    requires ValidSetting(z) && Inv(z, s) && Enabled(z, s, Tick(server, local))
    ensures Inv(z, Next(z, s, Tick(server, local)))
  {
    var s' := Next(z, s, Tick(server, local));
    assert OnlyTime(s, s');
    forall w | 0 <= w < |s'.nodes| ensures NodeOk(z, s', w, s'.nodes[w]) {
      TickKeepsNode(z, s, s', w, server, local[w]);
    }
    TimeKeepsCalls(s, s');
    TimeKeepsReplies(z, s, s');
    TimeKeepsEvaluations(s, s');
    TimeKeepsPast(s.tables, s.clock, s'.clock);
  }

  lemma TimeKeepsPast(t: Tables, clock: real, clock': real)
    requires Past(t, clock) && clock <= clock'
    ensures Past(t, clock')
  {
  }

  lemma TimeKeepsCalls(s: State, s': State)
    requires OnlyTime(s, s') && CallsOk(s)
    ensures CallsOk(s')
  {
  }

  lemma TimeKeepsReplies(z: Setting, s: State, s': State)
    requires OnlyTime(s, s') && RepliesOk(z, s)
    ensures RepliesOk(z, s')
  {
  }

  lemma TimeKeepsEvaluations(s: State, s': State)
    requires OnlyTime(s, s') && AllKnown(s)
    ensures AllKnown(s')
  {
  }

  lemma TickKeepsNode(z: Setting, s: State, s': State, w: nat, server: real, local: real)
    requires w < |s.nodes| && w < |s'.nodes| && NodeOk(z, s, w, s.nodes[w])
    requires s'.tables == s.tables && s'.calls == s.calls && s'.replies == s.replies && s'.clock == s.clock + server
    requires s'.nodes[w] == s.nodes[w].(clock := s.nodes[w].clock + local)
    requires server >= 0.0 && local >= 0.0 && server <= z.drift * local
    ensures NodeOk(z, s', w, s'.nodes[w])
  {
  }

  // ---------------------------------------------------------------- a worker moves

  /** The move of one worker leaves everyone else's facts in place. */
  ghost predicate Elsewhere(s: State, s': State, w: nat) {
    && w < |s.nodes|
    && s' == s.(nodes := s'.nodes, calls := s'.calls)
    && |s'.nodes| == |s.nodes|
    && (forall v | 0 <= v < |s.nodes| && v != w :: s'.nodes[v] == s.nodes[v])
    && s.calls <= s'.calls
    && (forall i | |s.calls| <= i < |s'.calls| :: s'.calls[i].request.worker == w)
  }

  lemma OthersKept(z: Setting, s: State, s': State, w: nat, v: nat)
    requires Elsewhere(s, s', w) && v != w && v < |s.nodes| && NodeOk(z, s, v, s.nodes[v])
    ensures NodeOk(z, s', v, s'.nodes[v])
  {
  }

  /** A result file, once written, keeps its report. */
  ghost predicate ReportsStay(n: Node, n': Node) {
    forall j | j in n.disk ::
        j in n'.disk && (ReportIn(n.disk[j].evidence).Some? ==>
                         ReportIn(n'.disk[j].evidence) == ReportIn(n.disk[j].evidence))
  }

  lemma MoveKeepsInv(z: Setting, s: State, w: nat, m: Move)
    requires ValidSetting(z) && Inv(z, s) && Enabled(z, s, AtNode(w, m))
    ensures Inv(z, Next(z, s, AtNode(w, m)))
  {
    var s' := Next(z, s, AtNode(w, m));
    assert NodeOk(z, s, w, s.nodes[w]);
    MoveKeepsDisk(z, s, w, m);
    MoveKeepsCalls(z, s, s', w, m);
    MoveKeepsNodes(z, s, w, m);
    MoveKeepsRest(z, s, w, m);
  }

  lemma MoveKeepsNodes(z: Setting, s: State, w: nat, m: Move)
    requires CallsOk(s) && RepliesOk(z, s) && NodesOk(z, s) && Enabled(z, s, AtNode(w, m))
    ensures NodesOk(z, Next(z, s, AtNode(w, m)))
  {
    var s' := Next(z, s, AtNode(w, m));
    assert Elsewhere(s, s', w);
    MovedNodeOk(z, s, w, m);
    forall v | 0 <= v < |s'.nodes| && v != w ensures NodeOk(z, s', v, s'.nodes[v]) { OthersKept(z, s, s', w, v); }
  }

  lemma MoveKeepsRest(z: Setting, s: State, w: nat, m: Move)
    requires RepliesOk(z, s) && AllKnown(s) && Enabled(z, s, AtNode(w, m))
    requires ReportsStay(s.nodes[w], Next(z, s, AtNode(w, m)).nodes[w])
    ensures RepliesOk(z, Next(z, s, AtNode(w, m))) && AllKnown(Next(z, s, AtNode(w, m)))
  {
    var s' := Next(z, s, AtNode(w, m));
    assert Elsewhere(s, s', w);
    forall call, r | (call, r) in s'.replies ensures ReplyOk(z, s', call, r) { assert ReplyOk(z, s, call, r); }
    forall e | 0 <= e < |s'.tables.evaluations| ensures EvaluationKnown(s', s'.tables.evaluations[e]) {
      var v := s.tables.evaluations[e];
      assert EvaluationKnown(s, v);
      var i: nat :| i < |s.calls| && IsResultCall(s.calls[i], v.worker, v.job);
      assert IsResultCall(s'.calls[i], v.worker, v.job);
      assert v.worker != w ==> s'.nodes[v.worker] == s.nodes[v.worker];
    }
  }

  lemma MoveKeepsDisk(z: Setting, s: State, w: nat, m: Move)
    requires w < |s.nodes| && NodeOk(z, s, w, s.nodes[w]) && CanMove(s, s.nodes[w], m)
    ensures ReportsStay(s.nodes[w], Moved(z, s, s.nodes[w], m, |s.calls|))
  {
  }

  lemma MoveKeepsCalls(z: Setting, s: State, s': State, w: nat, m: Move)
    requires CallsOk(s) && NodesOk(z, s) && Enabled(z, s, AtNode(w, m)) && s' == Next(z, s, AtNode(w, m))
    requires ReportsStay(s.nodes[w], s'.nodes[w])
    ensures CallsOk(s')
  {
    var n := s.nodes[w];
    assert NodeOk(z, s, w, n);
    forall i | 0 <= i < |s'.calls| ensures CallOk(s', s'.calls[i]) {
      if i < |s.calls| {
        assert CallOk(s, s.calls[i]);
      } else {
        match m
        case SendReplay(j) => assert FolderOk(s.tables, w, j, n.disk[j]);
        case SendUpload => assert FolderOk(s.tables, w, n.process.job, n.disk[n.process.job]);
        case _ =>
      }
    }
  }

  /** No job a claim could hand out has a folder yet, and no folder's job is new. */
  lemma TakenJobIsNew(z: Setting, s: State, w: nat, j: nat, token: nat)
    requires RepliesOk(z, s) && w < |s.nodes| && NodeOk(z, s, w, s.nodes[w]) && s.nodes[w].process.Claiming?
    requires (s.nodes[w].process.call, Granted(j, token)) in s.replies
    ensures Presents(s.tables, w, j, token) && j !in s.nodes[w].disk
  {
  }

  lemma MovedNodeOk(z: Setting, s: State, w: nat, m: Move)
    requires CallsOk(s) && RepliesOk(z, s) && NodesOk(z, s) && Enabled(z, s, AtNode(w, m))
    ensures var s' := Next(z, s, AtNode(w, m)); NodeOk(z, s', w, s'.nodes[w])
  {
    var s' := Next(z, s, AtNode(w, m));
    assert NodeOk(z, s, w, s.nodes[w]);
    MoveKeepsFolders(z, s, w, m);
    MoveKeepsLeft(z, s, w, m);
    if ChangesDisk(m) {
      DiskMove(z, s, w, m);
    } else if m.RenewalAcknowledged? {
      AcknowledgedProcessOk(z, s, w);
    } else if KeepsLease(m) {
      LeaseMove(z, s, w, m);
    } else if m.SendStatus? || m.SandboxGone? || m.UploadLost? {
      QuietMove(z, s, w, m);
    } else if m.SendClaim? || m.TakeJob? || m.SendUpload? || m.SendReplay? {
      SendingMove(z, s, w, m);
    } else {
      TakingMove(z, s, w, m);
    }
  }

  lemma MoveKeepsFolders(z: Setting, s: State, w: nat, m: Move)
    requires w < |s.nodes| && CanMove(s, s.nodes[w], m) && NodeOk(z, s, w, s.nodes[w])
    ensures FoldersOk(s.tables, w, Moved(z, s, s.nodes[w], m, |s.calls|))
  {
  }

  lemma MoveKeepsLeft(z: Setting, s: State, w: nat, m: Move)
    requires Enabled(z, s, AtNode(w, m)) && NodeOk(z, s, w, s.nodes[w])
    ensures LeftOk(z, s.tables, w, Moved(z, s, s.nodes[w], m, |s.calls|))
  {
  }

  /** The job whose folder a move changes. */
  function FolderOf(n: Node, m: Move): nat {
    match n.process
    case Leased(j, _, _, _, _) => j
    case Replayed(j, _, _) => j
    case Rejecting(j) => j
    case _ => 0
  }

  /** Moves that create a folder, write evidence or receipts, or rename the result file. */
  lemma DiskMove(z: Setting, s: State, w: nat, m: Move)
    requires CallsOk(s) && Enabled(z, s, AtNode(w, m)) && NodeOk(z, s, w, s.nodes[w]) && ChangesDisk(m)
    ensures var s' := Next(z, s, AtNode(w, m)); ProcessOk(z, s', w, s'.nodes[w])
  {
    var s' := Next(z, s, AtNode(w, m));
    if m.WriteEvidence? { NothingSentBefore(z, s, w, m.report); }
    FiledProcessOk(z, s, s', w, m);
  }

  lemma FiledProcessOk(z: Setting, s: State, s': State, w: nat, m: Move)
    requires w < |s.nodes| && CanMove(s, s.nodes[w], m) && ProcessOk(z, s, w, s.nodes[w]) && ChangesDisk(m)
    requires s' == s.(nodes := s.nodes[w := Moved(z, s, s.nodes[w], m, |s.calls|)])
    requires m.WriteEvidence? ==> !ResultSent(s', w, s.nodes[w].process.job)
    ensures ProcessOk(z, s', w, s'.nodes[w])
  {
  }

  /** No result of a job is sent before its evidence is written. */
  lemma NothingSentBefore(z: Setting, s: State, w: nat, report: Report)
    requires CallsOk(s) && Enabled(z, s, AtNode(w, WriteEvidence(report))) && NodeOk(z, s, w, s.nodes[w])
    ensures !ResultSent(Next(z, s, AtNode(w, WriteEvidence(report))), w, s.nodes[w].process.job)
  {
  }

  /** Moves of the renewal thread and the watchdog that leave the deadline alone. */
  lemma LeaseMove(z: Setting, s: State, w: nat, m: Move)
    requires Enabled(z, s, AtNode(w, m)) && NodeOk(z, s, w, s.nodes[w]) && KeepsLease(m) && !m.RenewalAcknowledged?
    ensures var s' := Next(z, s, AtNode(w, m)); ProcessOk(z, s', w, s'.nodes[w])
  {
    var s' := Next(z, s, AtNode(w, m));
    var n, n' := s.nodes[w], s'.nodes[w];
    var j := n.process.job;
    SameResults(s, s', w, j);
    if m.StartRenewal? {
      assert s'.calls[|s.calls|] == Call(JobBeat(w, j, n.process.token, m.event), s.clock);
    }
    if n'.process.renewal.Some? {
      assert RenewalOk(z, s', w, n', n'.process.renewal.value);
    }
    assert StageOk(z, s', w, n');
  }

  /** Moves that change neither the disk nor the lease. */
  lemma QuietMove(z: Setting, s: State, w: nat, m: Move)
    requires Enabled(z, s, AtNode(w, m)) && NodeOk(z, s, w, s.nodes[w])
             && (m.SendStatus? || m.SandboxGone? || m.UploadLost?)
    ensures var s' := Next(z, s, AtNode(w, m)); ProcessOk(z, s', w, s'.nodes[w])
  {
  }

  lemma SameResults(s: State, s': State, w: nat, j: nat)
    requires s.calls <= s'.calls
    requires forall i | |s.calls| <= i < |s'.calls| :: !s'.calls[i].request.SendResult?
    ensures ResultSent(s', w, j) == ResultSent(s, w, j)
  {
  }

  lemma RepliesAnswerCalls(z: Setting, s: State)
    requires RepliesOk(z, s)
    ensures forall call, r | (call, r) in s.replies :: call < |s.calls|
  {
  }

  lemma SendingMove(z: Setting, s: State, w: nat, m: Move)
    requires RepliesOk(z, s) && Enabled(z, s, AtNode(w, m)) && NodeOk(z, s, w, s.nodes[w])
    requires m.SendClaim? || m.TakeJob? || m.SendUpload? || m.SendReplay?
    ensures var s' := Next(z, s, AtNode(w, m)); ProcessOk(z, s', w, s'.nodes[w])
  {
    var s' := Next(z, s, AtNode(w, m));
    var n := s.nodes[w];
    match m
    case SendClaim =>
      RepliesAnswerCalls(z, s);
    case TakeJob(j, token) => TakenJobIsNew(z, s, w, j, token);
    case SendUpload => assert IsResultCall(s'.calls[|s.calls|], w, n.process.job);
    case SendReplay(j) => assert IsResultCall(s'.calls[|s.calls|], w, j);
  }

  /** Replies taken from the network are what the server sent. */
  lemma ReplyMove(z: Setting, s: State, w: nat, m: Move)
    requires RepliesOk(z, s) && Enabled(z, s, AtNode(w, m)) && NodeOk(z, s, w, s.nodes[w])
    requires m.TakeReceipt? || m.TakeReplayReceipt? || m.TakeRejection?
    ensures var s' := Next(z, s, AtNode(w, m)); ProcessOk(z, s', w, s'.nodes[w])
  {
    var n := s.nodes[w];
    match m
    case TakeReceipt(e) => assert ReplyOk(z, s, n.process.stage.upload.value, Receipt(e));
    case TakeReplayReceipt(e) => assert ReplyOk(z, s, n.process.replay, Receipt(e));
    case TakeRejection(code) => assert ReplyOk(z, s, n.process.replay, Error(code));
  }

  /** Moves that act on a reply, give up, crash or restart. */
  lemma TakingMove(z: Setting, s: State, w: nat, m: Move)
    requires RepliesOk(z, s) && Enabled(z, s, AtNode(w, m)) && NodeOk(z, s, w, s.nodes[w])
    requires m.GiveUp? || m.TakeReceipt? || m.LeaveLease? || m.Abandon? || m.TakeReplayReceipt? || m.TakeRejection?
             || m.Crash? || m.Restart?
    ensures var s' := Next(z, s, AtNode(w, m)); ProcessOk(z, s', w, s'.nodes[w])
  {
    if m.TakeReceipt? || m.TakeReplayReceipt? || m.TakeRejection? {
      ReplyMove(z, s, w, m);
    }
  }

  /** An acknowledged renewal covers the new deadline: its call reached the server
      after it was sent, so the lease was extended from a later time. */
  lemma AcknowledgedProcessOk(z: Setting, s: State, w: nat)
    requires RepliesOk(z, s) && Enabled(z, s, AtNode(w, RenewalAcknowledged)) && NodeOk(z, s, w, s.nodes[w])
    ensures var s' := Next(z, s, AtNode(w, RenewalAcknowledged)); ProcessOk(z, s', w, s'.nodes[w])
  {
    var s' := Next(z, s, AtNode(w, RenewalAcknowledged));
    var n, n' := s.nodes[w], s'.nodes[w];
    var r := n.process.renewal.value;
    assert ReplyOk(z, s, r.call, Renewed);
    var k' := n'.process.keeper;
    SameResults(s, s', w, n.process.job);
    if !k'.cancelled {
      assert k'.deadline - Lease(z) * SAFE_SHARE == r.sentAt;
      assert Covered(z, s', n', n.process.job, k');
    }
    assert StageOk(z, s', w, n');
  }

  lemma StepKeepsInv(z: Setting, s: State, a: Action)
    requires ValidSetting(z) && Inv(z, s) && Enabled(z, s, a)
    ensures Inv(z, Next(z, s, a))
  {
    match a
    case Serve(op) => ServeKeepsInv(z, s, op);
    case Deliver(call, env) => DeliverKeepsInv(z, s, call, env);
    case Tick(server, local) => TickKeepsInv(z, s, server, local);
    case AtNode(w, m) => MoveKeepsInv(z, s, w, m);
  }

  lemma {:induction false} PathKeepsInv(z: Setting, s: State, actions: seq<Action>, s': State)
    requires ValidSetting(z) && Inv(z, s) && Reaches(z, s, actions, s')
    ensures Inv(z, s')
    decreases |actions|
  {
    if actions != [] {
      StepKeepsInv(z, s, actions[0]);
      PathKeepsInv(z, Next(z, s, actions[0]), actions[1..], s');
    }
  }

  lemma ReachableInv(z: Setting, s: State)
    requires ValidSetting(z) && Reachable(z, s)
    ensures Inv(z, s)
  {
    var actions :| Reaches(z, START, actions, s);
    StartInv(z);
    PathKeepsInv(z, START, actions, s);
  }
}
