/** Results as a whole: the transaction on the tables together with the artifacts it stores
    (`EvaluationManager.result` in services.py), and uploads beside it, in one run. */
module Deliveries {
  import opened Records
  import opened Server
  import SI = ServerInvariant
  import SR = ServerRuns
  import SP = ServerProgress
  import ST = Storage

  /** What a deployment fixes: bounds, how artifacts are rendered, and the problems' names. */
  datatype Setup = Setup(config: Config, rendering: ST.Rendering, names: nat -> string)

  /** Problems are named by identifiers that the service made itself. */
  ghost predicate ValidSetup(u: Setup) { ValidConfig(u.config) && forall p :: ST.IsPlain(u.names(p)) }

  datatype Site = Site(tables: Tables, vault: ST.Vault)

  const START := Site(Server.EMPTY, ST.EMPTY)

  /** What is chosen anew for every result: its evaluation's identifier, the context line of
      the analysis, what becomes of each put, and of the commit. */
  datatype Delivery = Delivery(id: string, context: string, puts: seq<ST.PutLuck>, commits: bool)

  datatype Act = Serve(op: Op, now: real, delivery: Delivery) | Keep(step: ST.Step)

  /** The request passes the checks that come before anything is stored. */
  ghost predicate Stores(t: Tables, op: Op) {
    && op.OpRequest? && op.request.SendResult? && op.request.worker < |t.workers|
    && Presents(t, op.request.worker, op.request.job, op.request.token)
    && !Evaluated(t, op.request.job)
    && LeaseLive(t.jobs[op.request.job], op.env.at)
  }

  function ProblemOf(u: Setup, t: Tables, submission: nat): string {
    if submission < |t.submissions| then u.names(t.submissions[submission].problem) else ""
  }

  function Parcel(u: Setup, t: Tables, j: nat, report: Report, d: Delivery): seq<(string, string)>
    requires j < |t.jobs|
  {
    ST.Prefixed(ST.ArtifactPrefix(d.id, ProblemOf(u, t, t.jobs[j].submission)),
                ST.Artifacts(u.rendering, report, d.context))
  }

  /** Identifiers are made by the service, and its storing goes as the puts and the commit do. */
  ghost predicate LegalAct(u: Setup, s: Site, a: Act) {
    match a
    case Keep(step) =>
      !step.StoreResult? && (step.StoreAgent? ==> ST.IsPlain(step.agent) && ST.IsPlain(step.agentId))
    case Serve(op, now, d) =>
      && Legal(u.config, s.tables, op, now) && |d.puts| == 6 && ST.IsPlain(d.id)
      && (Stores(s.tables, op) ==>
            var parcel := Parcel(u, s.tables, op.request.job, op.request.report, d);
            (op.env.stored <==> ST.AfterPuts(s.vault.objects, parcel, d.puts).1 && d.commits))
  }

  ghost function AfterAct(u: Setup, s: Site, a: Act): Site
    requires LegalAct(u, s, a)
  {
    match a
    case Keep(step) => s.(vault := ST.After(u.rendering, s.vault, step))
    case Serve(op, now, d) =>
      Site(Apply(u.config, s.tables, op, now),
           if Stores(s.tables, op) then
             var j := op.request.job;
             ST.AfterResult(u.rendering, s.vault, d.id, ProblemOf(u, s.tables, s.tables.jobs[j].submission),
                            op.request.report, d.context,
                            ST.ResultLuck(d.puts, LeaseLive(s.tables.jobs[j], op.env.writeAt), d.commits))
           else s.vault)
  }

  ghost predicate Leads(u: Setup, s: Site, acts: seq<Act>, s': Site)
    decreases |acts|
  {
    if acts == [] then s' == s
    else LegalAct(u, s, acts[0]) && Leads(u, AfterAct(u, s, acts[0]), acts[1..], s')
  }

  // ---------------------------------------------------------------- one act

  /** The tables gain an evaluation exactly when everything has been stored, the commit goes
      through and the lease still runs afterwards. */
  ghost predicate Accepts(t: Tables, op: Op) {
    Stores(t, op) && op.env.stored && LeaseLive(t.jobs[op.request.job], op.env.writeAt)
  }

  lemma EvaluationsAfter(c: Config, t: Tables, op: Op, now: real)
    requires SI.Inv(c, t) && Legal(c, t, op, now)
    ensures Apply(c, t, op, now).evaluations
         == if Accepts(t, op)
            then var q := op.request;
                 t.evaluations + [Evaluation(q.job, t.jobs[q.job].submission, q.worker, q.report)]
            else t.evaluations
    ensures Stores(t, op) && !Accepts(t, op) ==> Apply(c, t, op, now).jobs == t.jobs
  {
    match op
    case OpSubmit(agent, problems, stamps) => SP.SubmitKeepsEvaluations(t, agent, problems, stamps);
    case OpReap(expired, at, writeAt, stamps) => SR.ReapExtends(c, t, expired, at, writeAt, stamps);
    case OpRegister =>
    case OpOffline(_, _) =>
    case OpRequest(q, env) =>
      if Accepts(t, op) {
        SI.ResultKeepsInv(c, t, q.worker, q.job, q.report, env, now);
      }
  }

  /** Row `e` of the two tables of evaluations is one and the same. */
  predicate SameEvaluation(u: Setup, t: Tables, e: Evaluation, row: ST.EvaluationRow) {
    row.report == e.report && row.artifactPath == ST.ArtifactPrefix(row.id, ProblemOf(u, t, e.submission))
  }

  ghost predicate Agrees(u: Setup, s: Site) {
    && |s.tables.evaluations| == |s.vault.evaluations|
    && forall e | 0 <= e < |s.tables.evaluations| ::
         s.tables.evaluations[e].submission < |s.tables.submissions|
         && SameEvaluation(u, s.tables, s.tables.evaluations[e], s.vault.evaluations[e])
  }

  ghost predicate Sound(u: Setup, s: Site) {
    SI.Inv(u.config, s.tables) && Agrees(u, s) && ST.NoDangling(u.rendering, s.vault)
  }

  /** The row that the store's side of an accepted result gains. */
  ghost function RowOf(u: Setup, t: Tables, op: Op, d: Delivery): ST.EvaluationRow
    requires Stores(t, op)
  {
    var j := op.request.job;
    ST.EvaluationRow(d.id, ST.ArtifactPrefix(d.id, ProblemOf(u, t, t.jobs[j].submission)), op.request.report, d.context)
  }

  lemma VaultAfter(u: Setup, s: Site, a: Act)
    requires LegalAct(u, s, a) && ST.NoDangling(u.rendering, s.vault)
    ensures var v' := AfterAct(u, s, a).vault;
            && ST.Preserved(u.rendering, s.vault, v')
            && v'.evaluations == if a.Serve? && Accepts(s.tables, a.op)
                                 then s.vault.evaluations + [RowOf(u, s.tables, a.op, a.delivery)]
                                 else s.vault.evaluations
  {
    match a
    case Keep(step) => ST.StepKeeps(u.rendering, s.vault, step);
    case Serve(op, now, d) =>
      if Stores(s.tables, op) {
        var j := op.request.job;
        var luck := ST.ResultLuck(d.puts, LeaseLive(s.tables.jobs[j], op.env.writeAt), d.commits);
        var name := ProblemOf(u, s.tables, s.tables.jobs[j].submission);
        ST.StepKeeps(u.rendering, s.vault, ST.StoreResult(d.id, name, op.request.report, d.context, luck));
      }
  }

  lemma ServeKeepsAgreement(u: Setup, s: Site, a: Act)
    requires ValidSetup(u) && Sound(u, s) && LegalAct(u, s, a) && a.Serve?
    ensures Agrees(u, AfterAct(u, s, a))
  {
    var t, t' := s.tables, Apply(u.config, s.tables, a.op, a.now);
    var s' := AfterAct(u, s, a);
    SR.StepExtends(u.config, t, a.op, a.now);
    EvaluationsAfter(u.config, t, a.op, a.now);
    VaultAfter(u, s, a);
    forall e | 0 <= e < |t'.evaluations|
      ensures t'.evaluations[e].submission < |t'.submissions|
      ensures SameEvaluation(u, t', t'.evaluations[e], s'.vault.evaluations[e])
    {
      if e == |t.evaluations| {
        assert SI.RowOk(u.config, t, t.jobs[a.op.request.job]);
      } else {
        assert t'.evaluations[e] == t.evaluations[e] && s'.vault.evaluations[e] == s.vault.evaluations[e];
      }
    }
  }

  lemma ActKeeps(u: Setup, s: Site, a: Act)
    requires ValidSetup(u) && Sound(u, s) && LegalAct(u, s, a)
    ensures Sound(u, AfterAct(u, s, a)) && ST.Preserved(u.rendering, s.vault, AfterAct(u, s, a).vault)
    ensures s.tables.evaluations <= AfterAct(u, s, a).tables.evaluations
  {
    VaultAfter(u, s, a);
    if a.Serve? {
      SI.StepKeepsInv(u.config, s.tables, a.op, a.now);
      SR.StepExtends(u.config, s.tables, a.op, a.now);
      ServeKeepsAgreement(u, s, a);
    }
  }

  lemma {:induction false} RunKeeps(u: Setup, s: Site, acts: seq<Act>, s': Site)
    requires ValidSetup(u) && Sound(u, s) && Leads(u, s, acts, s')
    ensures Sound(u, s') && ST.Preserved(u.rendering, s.vault, s'.vault)
    ensures s.tables.evaluations <= s'.tables.evaluations
    decreases |acts|
  {
    if acts != [] {
      ActKeeps(u, s, acts[0]);
      RunKeeps(u, AfterAct(u, s, acts[0]), acts[1..], s');
    }
  }

  // ---------------------------------------------------------------- whole runs

  /** Evaluation `e` of job `j`, with its six artifacts in the store. */
  predicate Filed(u: Setup, s: Site, j: nat, e: nat) {
    && e < |s.tables.evaluations| && e < |s.vault.evaluations|
    && s.tables.evaluations[e].job == j
    && SameEvaluation(u, s.tables, s.tables.evaluations[e], s.vault.evaluations[e])
    && ST.EvaluationStored(u.rendering, s.vault.objects, s.vault.evaluations[e])
  }

  /** In every run, with any puts, commits and leases failing at any point: the evaluations of
      the tables are those of the store, none refers to a missing or different object, and
      every job that ended otherwise than by the reaper has exactly one, under the name of
      its problem, with all six artifacts of the report that ended it. */
  lemma ReportedJobsAreFiled(u: Setup, acts: seq<Act>, s: Site, j: nat)
    requires ValidSetup(u) && Leads(u, START, acts, s)
    requires j < |s.tables.jobs| && s.tables.jobs[j].status.Terminal() && s.tables.jobs[j].error != Some(LeaseExpired)
    ensures exists e: nat ::
              && Filed(u, s, j, e) && s.vault.evaluations[e].report.status == s.tables.jobs[j].status
              && forall d: nat :: Filed(u, s, j, d) ==> d == e
  {
    assert SI.Inv(u.config, Server.EMPTY);
    RunKeeps(u, START, acts, s);
    assert Evaluated(s.tables, j);
    var e: nat :| EvaluationOf(s.tables, e, j);
    assert SI.EvaluationOk(s.tables, s.tables.evaluations[e]);
    assert Filed(u, s, j, e);
  }

  /** What filed means, name by name. */
  lemma FiledByName(u: Setup, s: Site, j: nat, e: nat)
    requires Filed(u, s, j, e)
    ensures var report, row := s.tables.evaluations[e].report, s.vault.evaluations[e];
            var path := "evaluations/" + row.id + "/" + ProblemOf(u, s.tables, s.tables.evaluations[e].submission);
            && ST.Contains(s.vault.objects, path + "/" + "stdout.log", report.stdout)
            && ST.Contains(s.vault.objects, path + "/" + "stderr.log", report.stderr)
            && ST.Contains(s.vault.objects, path + "/" + "agent_output.log", report.agentOutput)
            && ST.Contains(s.vault.objects, path + "/" + "patch.diff", report.patch)
            && ST.Contains(s.vault.objects, path + "/" + "test_result.json", u.rendering.tests(report.tests))
            && ST.Contains(s.vault.objects, path + "/" + "analysis.md", u.rendering.analysis(report, row.context))
  {
    var row := s.vault.evaluations[e];
    ST.StoredByName(u.rendering, s.vault.objects, row.artifactPath, row.report, row.context);
  }

  /** What was filed once stays filed, unchanged, through everything that follows. */
  lemma FiledForGood(u: Setup, acts: seq<Act>, s: Site, more: seq<Act>, s': Site, j: nat, e: nat)
    requires ValidSetup(u) && Leads(u, START, acts, s) && Leads(u, s, more, s') && Filed(u, s, j, e)
    ensures Filed(u, s', j, e) && s'.vault.evaluations[e] == s.vault.evaluations[e]
  {
    assert SI.Inv(u.config, Server.EMPTY);
    RunKeeps(u, START, acts, s);
    RunKeeps(u, s, more, s');
    assert s'.tables.evaluations[e] == s.tables.evaluations[e];
    assert s'.vault.evaluations[e] == s.vault.evaluations[e];
  }

  /** A result that is not accepted, because a put or the commit failed or the lease ran out
      while the artifacts were being stored, leaves every job as it was and adds no row to
      either table. */
  lemma FailedDeliveryLeavesNoRow(u: Setup, s: Site, a: Act)
    requires ValidSetup(u) && Sound(u, s) && LegalAct(u, s, a) && a.Serve?
    requires Stores(s.tables, a.op) && !Accepts(s.tables, a.op)
    ensures var s' := AfterAct(u, s, a);
            && s'.tables.jobs == s.tables.jobs && s'.tables.evaluations == s.tables.evaluations
            && s'.vault.evaluations == s.vault.evaluations
  {
    EvaluationsAfter(u.config, s.tables, a.op, a.now);
    VaultAfter(u, s, a);
  }

  // ---------------------------------------------------------------- identifiers

  /** The identifiers given to evaluations and agent versions so far. */
  function Given(acts: seq<Act>): set<string>
    decreases |acts|
  {
    if acts == [] then {}
    else Given(acts[1..]) + (match acts[0]
                             case Serve(_, _, d) => {d.id}
                             case Keep(StoreAgent(_, id, _, _, _, _)) => {id}
                             case Keep(_) => {})
  }

  /** The key was made for one of these identifiers. */
  predicate MadeFor(key: string, ids: set<string>) {
    var parts := ST.Split(key);
    |parts| == 4 && ((parts[0] == "evaluations" && parts[1] in ids) || (parts[0] == "agents" && parts[2] in ids))
  }

  predicate AllMadeFor(v: ST.Vault, ids: set<string>) { forall key | key in v.objects :: MadeFor(key, ids) }

  lemma {:induction false} PutsAddTheirKeys(objects: ST.Objects, items: seq<(string, string)>, lucks: seq<ST.PutLuck>)
    requires |items| == |lucks|
    ensures forall key | key in ST.AfterPuts(objects, items, lucks).0 ::
              key in objects || exists i :: 0 <= i < |items| && items[i].0 == key
    decreases |items|
  {
    if items != [] {
      var (objects1, ok) := ST.AfterPut(objects, items[0].0, items[0].1, lucks[0]);
      if ok {
        PutsAddTheirKeys(objects1, items[1..], lucks[1..]);
        forall key | key in ST.AfterPuts(objects1, items[1..], lucks[1..]).0 && key !in objects1
          ensures exists i :: 0 <= i < |items| && items[i].0 == key
        {
          var i :| 0 <= i < |items[1..]| && items[1..][i].0 == key;
          assert items[i + 1].0 == key;
        }
        assert items[0].0 in objects1.Keys - objects.Keys ==> items[0].0 == items[0].0;
      }
    }
  }

  lemma ParcelIsMadeFor(u: Setup, t: Tables, j: nat, report: Report, d: Delivery)
    requires ValidSetup(u) && SI.Rows(u.config, t) && j < |t.jobs| && ST.IsPlain(d.id)
    ensures var parcel := Parcel(u, t, j, report, d);
            forall i | 0 <= i < |parcel| ::
              && ST.IsLogicalKey(parcel[i].0)
              && |ST.Split(parcel[i].0)| == 4 && ST.Split(parcel[i].0)[0] == "evaluations"
              && ST.Split(parcel[i].0)[1] == d.id
  {
    assert SI.RowOk(u.config, t, t.jobs[j]);
    var name := ProblemOf(u, t, t.jobs[j].submission);
    var parcel := Parcel(u, t, j, report, d);
    forall i | 0 <= i < |parcel|
      ensures && ST.IsLogicalKey(parcel[i].0)
              && |ST.Split(parcel[i].0)| == 4 && ST.Split(parcel[i].0)[0] == "evaluations"
              && ST.Split(parcel[i].0)[1] == d.id
    {
      ST.FixedPartsArePlain(i);
      ST.KeysTellTheirOwner(d.id, name, i, "agents", "agents");
      assert parcel[i].0 == ST.ArtifactPrefix(d.id, name) + "/" + ST.ARTIFACT_NAMES[i];
    }
  }

  lemma ActKeepsKeys(u: Setup, s: Site, a: Act, ids: set<string>)
    requires ValidSetup(u) && Sound(u, s) && LegalAct(u, s, a) && AllMadeFor(s.vault, ids)
    ensures AllMadeFor(AfterAct(u, s, a).vault, ids + Given([a]))
  {
    assert Given([a][1..]) == {};
    match a
    case Keep(StoreAgent(agent, id, _, content, _, l)) =>
      ST.FixedPartsArePlain(0);
      ST.KeysTellTheirOwner(id, id, 0, agent, id);
    case Keep(AddAgent(_)) =>
    case Serve(op, now, d) =>
      if Stores(s.tables, op) {
        var parcel := Parcel(u, s.tables, op.request.job, op.request.report, d);
        ParcelIsMadeFor(u, s.tables, op.request.job, op.request.report, d);
        PutsAddTheirKeys(s.vault.objects, parcel, d.puts);
      }
  }

  lemma {:induction false} RunKeepsKeys(u: Setup, s: Site, acts: seq<Act>, s': Site, ids: set<string>)
    requires ValidSetup(u) && Sound(u, s) && Leads(u, s, acts, s') && AllMadeFor(s.vault, ids)
    ensures AllMadeFor(s'.vault, ids + Given(acts))
    decreases |acts|
  {
    if acts != [] {
      ActKeeps(u, s, acts[0]);
      ActKeepsKeys(u, s, acts[0], ids);
      assert [acts[0]][1..] == [];
      RunKeepsKeys(u, AfterAct(u, s, acts[0]), acts[1..], s', ids + Given([acts[0]]));
      assert ids + Given([acts[0]]) + Given(acts[1..]) == ids + Given(acts);
    } else {
      assert ids + Given(acts) == ids;
    }
  }

  /** In every run, each stored key was made for an identifier that the run has given. */
  lemma RunAccountsForKeys(u: Setup, acts: seq<Act>, s: Site)
    requires ValidSetup(u) && Leads(u, START, acts, s)
    ensures Sound(u, s) && AllMadeFor(s.vault, Given(acts))
  {
    assert SI.Inv(u.config, Server.EMPTY);
    RunKeeps(u, START, acts, s);
    RunKeepsKeys(u, START, acts, s, {});
    assert {} + Given(acts) == Given(acts);
  }

  lemma FreshParcelIsUnused(u: Setup, acts: seq<Act>, s: Site, j: nat, report: Report, d: Delivery)
    requires ValidSetup(u) && Leads(u, START, acts, s) && j < |s.tables.jobs|
    requires ST.IsPlain(d.id) && d.id !in Given(acts)
    ensures ST.Unused(s.vault.objects, Parcel(u, s.tables, j, report, d))
  {
    var items := Parcel(u, s.tables, j, report, d);
    RunAccountsForKeys(u, acts, s);
    ParcelIsMadeFor(u, s.tables, j, report, d);
    forall i | 0 <= i < |items| ensures items[i].0 !in s.vault.objects {
      assert !MadeFor(items[i].0, Given(acts));
    }
  }

  /** Storage works and the commit goes through. */
  ghost predicate Unhindered(s: Site, a: Act) {
    && a.Serve? && Stores(s.tables, a.op) && a.delivery.commits
    && (forall i | 0 <= i < |a.delivery.puts| :: a.delivery.puts[i].Stores?)
  }

  /** What failed deliveries have left in the write-once store is in nobody's way: under an
      identifier that no earlier delivery or upload was given, a result is accepted if and
      only if its lease still runs, and then it is filed. */
  lemma FreshDeliveryIsAccepted(u: Setup, acts: seq<Act>, s: Site, a: Act)
    requires ValidSetup(u) && Leads(u, START, acts, s) && LegalAct(u, s, a) && Unhindered(s, a)
    requires a.delivery.id !in Given(acts)
    ensures Filed(u, AfterAct(u, s, a), a.op.request.job, |s.tables.evaluations|)
       <==> LeaseLive(s.tables.jobs[a.op.request.job], a.op.env.writeAt)
  {
    var q := a.op.request;
    var items := Parcel(u, s.tables, q.job, q.report, a.delivery);
    RunAccountsForKeys(u, acts, s);
    FreshParcelIsUnused(u, acts, s, q.job, q.report, a.delivery);
    FreshKeysDiffer(u, s, a);
    ST.UnusedKeysAreStored(s.vault.objects, items, a.delivery.puts);
    EvaluationsAfter(u.config, s.tables, a.op, a.now);
    ServeKeepsAgreement(u, s, a);
    VaultAfter(u, s, a);
  }

  /** The same for uploads: a fitting file of a known agent becomes its next version. */
  lemma FreshUploadIsAccepted(u: Setup, acts: seq<Act>, s: Site, a: Act)
    requires ValidSetup(u) && Leads(u, START, acts, s) && LegalAct(u, s, a) && a.Keep? && a.step.StoreAgent?
    requires a.step.agentId !in Given(acts) && a.step.upload == ST.UploadLuck(true, ST.Stores, true)
    ensures var v, v', x := s.vault, AfterAct(u, s, a).vault, a.step;
            if x.agent in v.agents && x.filename == "agent.py" && 0 < |x.content| <= x.limit
            then && v'.versions == v.versions + [ST.NextVersion(v, x.agent, x.agentId, x.content)]
                 && ST.Contains(v'.objects, "agents/" + x.agent + "/" + x.agentId + "/agent.py", x.content)
            else v' == v
  {
    var x := a.step;
    RunAccountsForKeys(u, acts, s);
    ST.FixedPartsArePlain(0);
    ST.KeysTellTheirOwner(x.agentId, x.agentId, 0, x.agent, x.agentId);
    var key := ST.AgentKey(x.agent, x.agentId);
    assert !MadeFor(key, Given(acts));
  }

  lemma FreshKeysDiffer(u: Setup, s: Site, b: Act)
    requires b.Serve? && b.op.OpRequest? && b.op.request.SendResult? && b.op.request.job < |s.tables.jobs|
    ensures ST.Distinct(Parcel(u, s.tables, b.op.request.job, b.op.request.report, b.delivery))
  {
    var j := b.op.request.job;
    ST.ArtifactsDiffer(u.rendering,
                       ST.ArtifactPrefix(b.delivery.id, ProblemOf(u, s.tables, s.tables.jobs[j].submission)),
                       b.op.request.report, b.delivery.context);
  }
}
