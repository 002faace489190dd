/** The write-once object store and what the service's rows say is in it (storage.py, and
    the storing parts of services.py). Object contents are kept as text. */
module Storage {
  import opened Records

  // ---------------------------------------------------------------- keys

  function Split(s: string): (parts: seq<string>)
    ensures parts != []
  {
    if s == "" then [""] else PutBefore(s[0], Split(s[1..]))
  }

  function PutBefore(c: char, parts: seq<string>): (r: seq<string>)
    requires parts != []
    ensures r != []
  {
    if c == '/' then [""] + parts else [[c] + parts[0]] + parts[1..]
  }

  function Join(parts: seq<string>): string
    requires parts != []
  {
    if |parts| == 1 then parts[0] else parts[0] + "/" + Join(parts[1..])
  }

  predicate IsLogicalKey(key: string) {
    && key != ""
    && (forall i | 0 <= i < |Split(key)| :: Split(key)[i] !in {"", ".", ".."})
    && '\\' !in key && '\0' !in key
  }

  /** Where a path leads: `.` and empty parts stay, `..` goes up. */
  function Walk(at: seq<string>, parts: seq<string>): seq<string>
    decreases |parts|
  {
    if parts == [] then at
    else if parts[0] in {"", "."} then Walk(at, parts[1..])
    else if parts[0] == ".." then Walk(if at == [] then [] else at[..|at| - 1], parts[1..])
    else Walk(at + [parts[0]], parts[1..])
  }

  lemma {:induction false} JoinSplit(s: string)
    ensures Join(Split(s)) == s
  {
    if s != "" {
      JoinSplit(s[1..]);
      var rest := Split(s[1..]);
      if s[0] == '/' {
        assert ([""] + rest)[1..] == rest;
      } else {
        var parts := [[s[0]] + rest[0]] + rest[1..];
        assert parts[1..] == rest[1..];
        assert Join(parts) == [s[0]] + Join(rest);
      }
    }
  }

  lemma {:induction false} WalkPlain(at: seq<string>, parts: seq<string>)
    requires forall i | 0 <= i < |parts| :: parts[i] !in {"", ".", ".."}
    ensures Walk(at, parts) == at + parts
    decreases |parts|
  {
    if parts == [] {
      assert at + parts == at;
    } else {
      WalkPlain(at + [parts[0]], parts[1..]);
      assert at + [parts[0]] + parts[1..] == at + parts;
    }
  }

  /** An accepted key stays below any root it is joined to, and no two accepted keys name
      the same place. */
  lemma KeysStayInside(root: seq<string>, a: string, b: string)
    requires IsLogicalKey(a) && IsLogicalKey(b)
    ensures root < Walk(root, Split(a))
    ensures Walk(root, Split(a)) == Walk(root, Split(b)) ==> a == b
  {
    WalkPlain(root, Split(a));
    WalkPlain(root, Split(b));
    JoinSplit(a);
    JoinSplit(b);
    if Walk(root, Split(a)) == Walk(root, Split(b)) {
      assert Split(a) == (root + Split(a))[|root|..] == (root + Split(b))[|root|..] == Split(b);
    }
  }

  /** A single component of a key, such as the identifiers that `uid` makes. */
  predicate IsPlain(s: string) { s !in {"", ".", ".."} && '/' !in s && '\\' !in s && '\0' !in s }

  lemma {:induction false} SplitPlain(s: string)
    requires '/' !in s
    ensures Split(s) == [s]
  {
    if s != "" {
      SplitPlain(s[1..]);
      assert s[0] in s && s == [s[0]] + s[1..];
    }
  }

  lemma {:induction false} SplitConcat(a: string, b: string)
    ensures Split(a + "/" + b) == Split(a) + Split(b)
    decreases |a|
  {
    var all := a + "/" + b;
    if a == "" {
      assert all[1..] == b;
    } else {
      assert all[0] == a[0] && all[1..] == a[1..] + "/" + b;
      SplitConcat(a[1..], b);
      SplitStep(all, a, Split(b));
    }
  }

  lemma SplitStep(all: string, a: string, more: seq<string>)
    requires all != "" && a != "" && all[0] == a[0] && Split(all[1..]) == Split(a[1..]) + more
    ensures Split(all) == Split(a) + more
  {
    PutBeforeConcat(a[0], Split(a[1..]), more);
  }

  lemma PutBeforeConcat(c: char, parts: seq<string>, more: seq<string>)
    requires parts != []
    ensures PutBefore(c, parts + more) == PutBefore(c, parts) + more
  {
    assert (parts + more)[0] == parts[0] && (parts + more)[1..] == parts[1..] + more;
  }

  /** A key made of plain components is accepted, and its components can be told from it. */
  lemma FourParts(a: string, b: string, c: string, d: string)
    requires IsPlain(a) && IsPlain(b) && IsPlain(c) && IsPlain(d)
    ensures var key := a + "/" + b + "/" + c + "/" + d;
            IsLogicalKey(key) && Split(key) == [a, b, c, d]
  {
    SplitPlain(a);
    SplitPlain(b);
    SplitPlain(c);
    SplitPlain(d);
    SplitConcat(a, b);
    SplitConcat(a + "/" + b, c);
    SplitConcat(a + "/" + b + "/" + c, d);
  }

  /** The accepted keys are exactly those that plain components make when joined by `/`. */
  lemma KeysAreJoined(key: string)
    ensures IsLogicalKey(key) <==> exists parts :: MadeOf(key, parts)
  {
    if IsLogicalKey(key) {
      JoinSplit(key);
      forall i | 0 <= i < |Split(key)| ensures IsPlain(Split(key)[i]) { PartOf(key, i); }
      assert MadeOf(key, Split(key));
    }
    if exists parts :: MadeOf(key, parts) {
      var parts :| MadeOf(key, parts);
      SplitJoin(parts);
      JoinedChars(parts);
      assert key == "" ==> Split(key) == [""];
    }
  }

  predicate MadeOf(key: string, parts: seq<string>) {
    parts != [] && key == Join(parts) && forall i | 0 <= i < |parts| :: IsPlain(parts[i])
  }

  /** A component holds no `/` and only characters of its key. */
  lemma {:induction false} PartOf(key: string, i: nat)
    requires i < |Split(key)|
    ensures '/' !in Split(key)[i] && forall c | c in Split(key)[i] :: c in key
  {
    if key != "" {
      var rest := Split(key[1..]);
      assert forall c | c in key[1..] :: c in key;
      if key[0] == '/' {
        if i > 0 { PartOf(key[1..], i - 1); }
      } else {
        PartOf(key[1..], i);
      }
    }
  }

  lemma {:induction false} SplitJoin(parts: seq<string>)
    requires parts != [] && forall i | 0 <= i < |parts| :: '/' !in parts[i]
    ensures Split(Join(parts)) == parts
  {
    SplitPlain(parts[0]);
    if |parts| > 1 {
      SplitJoin(parts[1..]);
      SplitConcat(parts[0], Join(parts[1..]));
    }
  }

  lemma {:induction false} JoinedChars(parts: seq<string>)
    requires parts != [] && forall i | 0 <= i < |parts| :: IsPlain(parts[i])
    ensures '\\' !in Join(parts) && '\0' !in Join(parts)
  {
    if |parts| > 1 {
      JoinedChars(parts[1..]);
      assert forall c | c in Join(parts) :: c in parts[0] || c == '/' || c in Join(parts[1..]);
    }
  }

  // ---------------------------------------------------------------- the object store

  type Objects = map<string, string>

  /** A put may fail before or after something has been stored under its key: part of the
      content, or all of it when only the reply or the check afterwards failed. */
  datatype PutLuck = Stores | Fails | FailsAfter(left: string)

  /** The store after a put, and whether the put succeeded. */
  function AfterPut(objects: Objects, key: string, content: string, luck: PutLuck): (Objects, bool) {
    if !IsLogicalKey(key) || key in objects then (objects, false)
    else match luck
      case Stores => (objects[key := content], true)
      case Fails => (objects, false)
      case FailsAfter(left) => (objects[key := left], false)
  }

  /** Puts one after another until one fails. */
  function AfterPuts(objects: Objects, items: seq<(string, string)>, lucks: seq<PutLuck>): (Objects, bool)
    requires |items| == |lucks|
    decreases |items|
  {
    if items == [] then (objects, true)
    else
      var (objects', ok) := AfterPut(objects, items[0].0, items[0].1, lucks[0]);
      if ok then AfterPuts(objects', items[1..], lucks[1..]) else (objects', false)
  }

  predicate Kept(objects: Objects, objects': Objects) {
    forall k | k in objects :: k in objects' && objects'[k] == objects[k]
  }

  predicate Holds(objects: Objects, items: seq<(string, string)>) {
    forall i | 0 <= i < |items| :: items[i].0 in objects && objects[items[i].0] == items[i].1
  }

  /** No put changes what is stored, and puts that all succeed leave every item in place. */
  lemma {:induction false} PutsKeepAndHold(objects: Objects, items: seq<(string, string)>, lucks: seq<PutLuck>)
    requires |items| == |lucks|
    ensures var (objects', ok) := AfterPuts(objects, items, lucks);
            Kept(objects, objects') && (ok ==> Holds(objects', items))
    decreases |items|
  {
    if items != [] {
      var (objects1, ok) := AfterPut(objects, items[0].0, items[0].1, lucks[0]);
      if ok {
        PutsKeepAndHold(objects1, items[1..], lucks[1..]);
        var (objects', all) := AfterPuts(objects1, items[1..], lucks[1..]);
        if all {
          forall i | 0 <= i < |items| ensures items[i].0 in objects' && objects'[items[i].0] == items[i].1 {
            if i > 0 { assert items[i] == items[1..][i - 1]; }
          }
        }
      }
    }
  }

  /** Keys that are accepted and under which nothing is stored, of whole items or parts. */
  predicate Unused(objects: Objects, items: seq<(string, string)>) {
    forall i | 0 <= i < |items| :: IsLogicalKey(items[i].0) && items[i].0 !in objects
  }

  predicate Distinct(items: seq<(string, string)>) {
    forall i, j | 0 <= i < j < |items| :: items[i].0 != items[j].0
  }

  /** Items under unused keys are stored whatever else the store holds. */
  lemma {:induction false} UnusedKeysAreStored(objects: Objects, items: seq<(string, string)>, lucks: seq<PutLuck>)
    requires |items| == |lucks| && Unused(objects, items) && Distinct(items)
    requires forall i | 0 <= i < |lucks| :: lucks[i].Stores?
    ensures AfterPuts(objects, items, lucks).1
    decreases |items|
  {
    if items != [] {
      var objects1 := AfterPut(objects, items[0].0, items[0].1, lucks[0]).0;
      forall i | 0 <= i < |items[1..]| ensures items[1..][i].0 !in objects1 {
        assert items[0].0 != items[i + 1].0;
      }
      UnusedKeysAreStored(objects1, items[1..], lucks[1..]);
    }
  }

  // ---------------------------------------------------------------- rows that refer to objects

  /** How the texts that are not taken from a report as they stand are made of it. */
  datatype Rendering = Rendering(tests: seq<TestStatus> -> string, analysis: (Report, string) -> string)

  function Artifacts(r: Rendering, report: Report, context: string): seq<(string, string)> {
    [("stdout.log", report.stdout),
     ("stderr.log", report.stderr),
     ("agent_output.log", report.agentOutput),
     ("patch.diff", report.patch),
     ("test_result.json", r.tests(report.tests)),
     ("analysis.md", r.analysis(report, context))]
  }

  function Prefixed(prefix: string, items: seq<(string, string)>): seq<(string, string)> {
    seq(|items|, i requires 0 <= i < |items| => (prefix + "/" + items[i].0, items[i].1))
  }

  /** The six artifacts never collide with each other. */
  lemma ArtifactsDiffer(r: Rendering, prefix: string, report: Report, context: string)
    ensures Distinct(Prefixed(prefix, Artifacts(r, report, context)))
  {
    var artifacts := Artifacts(r, report, context);
    forall i, j | 0 <= i < j < |artifacts| ensures prefix + "/" + artifacts[i].0 != prefix + "/" + artifacts[j].0 {
      var a, b := artifacts[i].0, artifacts[j].0;
      assert a != b;
      assert (prefix + "/" + a)[|prefix + "/"|..] == a && (prefix + "/" + b)[|prefix + "/"|..] == b;
    }
  }

  datatype EvaluationRow = EvaluationRow(id: string, artifactPath: string, report: Report, context: string)

  datatype VersionRow = VersionRow(id: string, agent: string, version: nat, path: string, content: string)

  datatype Vault = Vault(
    objects: Objects, agents: set<string>, evaluations: seq<EvaluationRow>, versions: seq<VersionRow>)

  function ArtifactPrefix(id: string, problem: string): string { "evaluations/" + id + "/" + problem }

  function AgentKey(agent: string, id: string): string { "agents/" + agent + "/" + id + "/agent.py" }

  /** What the world decides while a result is being stored. */
  datatype ResultLuck = ResultLuck(puts: seq<PutLuck>, leaseLeft: bool, commits: bool)

  /** The stages of storing a result; only the last one leaves a row. */
  function AfterResult(r: Rendering, v: Vault, id: string, problem: string, report: Report, context: string,
                       l: ResultLuck): Vault
    requires |l.puts| == 6
  {
    var prefix := ArtifactPrefix(id, problem);
    var (objects, ok) := AfterPuts(v.objects, Prefixed(prefix, Artifacts(r, report, context)), l.puts);
    v.(objects := objects,
       evaluations := if ok && l.leaseLeft && l.commits
                      then v.evaluations + [EvaluationRow(id, prefix, report, context)]
                      else v.evaluations)
  }

  const ARTIFACT_NAMES := ["stdout.log", "stderr.log", "agent_output.log", "patch.diff", "test_result.json",
                           "analysis.md"]

  /** The keys of different evaluations never meet, nor do those of different uploads or of
      an evaluation and an upload: each tells what it belongs to. */
  lemma KeysTellTheirOwner(id: string, problem: string, k: nat, agent: string, version: string)
    requires IsPlain(id) && IsPlain(problem) && k < 6 && IsPlain(agent) && IsPlain(version)
    ensures var key := ArtifactPrefix(id, problem) + "/" + ARTIFACT_NAMES[k];
            IsLogicalKey(key) && Split(key) == ["evaluations", id, problem, ARTIFACT_NAMES[k]]
    ensures IsLogicalKey(AgentKey(agent, version))
            && Split(AgentKey(agent, version)) == ["agents", agent, version, "agent.py"]
  {
    FixedPartsArePlain(k);
    FourParts("evaluations", id, problem, ARTIFACT_NAMES[k]);
    FourParts("agents", agent, version, "agent.py");
    assert "evaluations/" == "evaluations" + "/" && "agents/" == "agents" + "/" && "/agent.py" == "/" + "agent.py";
    assert AgentKey(agent, version) == "agents" + "/" + agent + "/" + version + "/" + "agent.py";
  }

  lemma FixedPartsArePlain(k: nat)
    requires k < 6
    ensures IsPlain(ARTIFACT_NAMES[k]) && IsPlain("evaluations") && IsPlain("agents") && IsPlain("agent.py")
  {
  }

  /** What is stored for an evaluation, name by name. */
  predicate ArtifactsAt(r: Rendering, objects: Objects, path: string, report: Report, context: string) {
    && Contains(objects, path + "/" + "stdout.log", report.stdout)
    && Contains(objects, path + "/" + "stderr.log", report.stderr)
    && Contains(objects, path + "/" + "agent_output.log", report.agentOutput)
    && Contains(objects, path + "/" + "patch.diff", report.patch)
    && Contains(objects, path + "/" + "test_result.json", r.tests(report.tests))
    && Contains(objects, path + "/" + "analysis.md", r.analysis(report, context))
  }

  predicate Contains(objects: Objects, key: string, content: string) { key in objects && objects[key] == content }

  lemma StoredByName(r: Rendering, objects: Objects, path: string, report: Report, context: string)
    ensures Holds(objects, Prefixed(path, Artifacts(r, report, context))) <==>
              ArtifactsAt(r, objects, path, report, context)
  {
    var items := Prefixed(path, Artifacts(r, report, context));
    assert items[0] == (path + "/" + "stdout.log", report.stdout);
    assert items[1] == (path + "/" + "stderr.log", report.stderr);
    assert items[2] == (path + "/" + "agent_output.log", report.agentOutput);
    assert items[3] == (path + "/" + "patch.diff", report.patch);
    assert items[4] == (path + "/" + "test_result.json", r.tests(report.tests));
    assert items[5] == (path + "/" + "analysis.md", r.analysis(report, context));
  }

  const NO_VERSION: nat := 0

  function MaxVersion(versions: seq<VersionRow>, agent: string): nat {
    if versions == [] then NO_VERSION
    else
      var rest := MaxVersion(versions[..|versions| - 1], agent);
      var last := versions[|versions| - 1];
      if last.agent == agent && last.version > rest then last.version else rest
  }

  /** `parses` is the syntax check; `commits` the commit after the file has been stored. */
  datatype UploadLuck = UploadLuck(parses: bool, put: PutLuck, commits: bool)

  predicate Uploadable(filename: string, content: string, limit: nat, l: UploadLuck) {
    filename == "agent.py" && 0 < |content| <= limit && l.parses
  }

  function NextVersion(v: Vault, agent: string, id: string, content: string): VersionRow {
    VersionRow(id, agent, MaxVersion(v.versions, agent) + 1, AgentKey(agent, id), content)
  }

  /** `Broken` is a failed put or commit, which is answered with 503 or 500. */
  datatype UploadReply = Uploaded(version: nat) | Refused(code: nat) | Broken

  /** An upload: the vault afterwards and the reply. */
  function AfterUpload(v: Vault, agent: string, id: string, filename: string, content: string, limit: nat,
                       l: UploadLuck): (Vault, UploadReply) {
    if agent !in v.agents then (v, Refused(404))
    else if !Uploadable(filename, content, limit, l) then (v, Refused(422))
    else
      var (objects, ok) := AfterPut(v.objects, AgentKey(agent, id), content, l.put);
      if ok && l.commits then
        var row := NextVersion(v, agent, id, content);
        (v.(objects := objects, versions := v.versions + [row]), Uploaded(row.version))
      else (v.(objects := objects), Broken)
  }

  datatype Step =
    | AddAgent(agent: string)
    | StoreResult(id: string, problem: string, report: Report, context: string, luck: ResultLuck)
    | StoreAgent(agent: string, agentId: string, filename: string, content: string, limit: nat, upload: UploadLuck)

  predicate LegalStep(s: Step) { s.StoreResult? ==> |s.luck.puts| == 6 }

  function After(r: Rendering, v: Vault, s: Step): Vault
    requires LegalStep(s)
  {
    match s
    case AddAgent(agent) => v.(agents := v.agents + {agent})
    case StoreResult(id, problem, report, context, l) => AfterResult(r, v, id, problem, report, context, l)
    case StoreAgent(agent, id, filename, content, limit, l) =>
      AfterUpload(v, agent, id, filename, content, limit, l).0
  }

  function AfterAll(r: Rendering, v: Vault, steps: seq<Step>): Vault
    requires forall i | 0 <= i < |steps| :: LegalStep(steps[i])
    decreases |steps|
  {
    if steps == [] then v else AfterAll(r, After(r, v, steps[0]), steps[1..])
  }

  // ---------------------------------------------------------------- the operations

  class StorageBackend {
    var objects: Objects

    constructor (objects: Objects)
      ensures this.objects == objects
    {
      this.objects := objects;
    }

    /** Exclusive creation of a local file, or a conditional write followed by a check. */
    method Put(key: string, content: string, luck: PutLuck) returns (ok: bool)
      modifies this
      ensures (objects, ok) == AfterPut(old(objects), key, content, luck)
      ensures Kept(old(objects), objects) && objects.Keys <= old(objects).Keys + {key}
      ensures ok ==> key !in old(objects) && IsLogicalKey(key) && key in objects && objects[key] == content
      ensures !IsLogicalKey(key) || key in old(objects) ==> !ok && objects == old(objects)
    {
      if !IsLogicalKey(key) { return false; }
      if key in objects { return false; }
      match luck {
        case Stores =>
          objects := objects[key := content];
          ok := true;
        case Fails =>
          ok := false;
        case FailsAfter(left) =>
          objects := objects[key := left];
          ok := false;
      }
    }
  }

  class Service {
    const storage: StorageBackend
    const rendering: Rendering
    var agents: set<string>
    var evaluations: seq<EvaluationRow>
    var versions: seq<VersionRow>

    function View(): Vault
      reads this, storage
    {
      Vault(storage.objects, agents, evaluations, versions)
    }

    constructor (storage: StorageBackend, rendering: Rendering)
      ensures this.storage == storage && this.rendering == rendering
      ensures View() == Vault(storage.objects, {}, [], [])
    {
      this.storage, this.rendering := storage, rendering;
      agents, evaluations, versions := {}, [], [];
    }

    /** `collect_artifacts`: the six artifacts of a report, each below the same prefix. */
    method CollectArtifacts(id: string, problem: string, report: Report, context: string, lucks: seq<PutLuck>)
      returns (path: string, ok: bool)
      requires |lucks| == 6
      modifies storage
      ensures path == ArtifactPrefix(id, problem)
      ensures (storage.objects, ok)
           == AfterPuts(old(storage.objects), Prefixed(path, Artifacts(rendering, report, context)), lucks)
    {
      path := ArtifactPrefix(id, problem);
      var artifacts := Artifacts(rendering, report, context);
      ghost var items := Prefixed(path, artifacts);
      for i := 0 to |artifacts|
        invariant AfterPuts(old(storage.objects), items, lucks) == AfterPuts(storage.objects, items[i..], lucks[i..])
      {
        assert items[i..][1..] == items[i + 1..] && lucks[i..][1..] == lucks[i + 1..];
        ok := storage.Put(path + "/" + artifacts[i].0, artifacts[i].1, lucks[i]);
        if !ok { return; }
      }
      ok := true;
    }

    /** The storing half of `result`: the row is committed last. */
    method Result(id: string, problem: string, report: Report, context: string, l: ResultLuck) returns (committed: bool)
      requires |l.puts| == 6
      modifies this, storage
      ensures View() == AfterResult(rendering, old(View()), id, problem, report, context, l)
      ensures committed <==> evaluations != old(evaluations)
    {
      var path, stored := CollectArtifacts(id, problem, report, context, l.puts);
      if !stored || !l.leaseLeft || !l.commits { return false; }
      evaluations := evaluations + [EvaluationRow(id, path, report, context)];
      committed := true;
    }

    /** `AgentManager.upload`: the file is stored before its row is committed. */
    method Upload(agent: string, id: string, filename: string, content: string, limit: nat, l: UploadLuck)
      returns (reply: UploadReply)
      modifies this, storage
      ensures (View(), reply) == AfterUpload(old(View()), agent, id, filename, content, limit, l)
      ensures reply.Uploaded? <==> versions != old(versions)
      ensures reply.Refused? ==> View() == old(View())
    {
      if agent !in agents { return Refused(404); }
      if filename != "agent.py" || |content| == 0 || |content| > limit { return Refused(422); }
      if !l.parses { return Refused(422); }
      var version := 0;
      for i := 0 to |versions|
        invariant version == MaxVersion(versions[..i], agent)
      {
        assert versions[..i + 1][..i] == versions[..i];
        if versions[i].agent == agent && versions[i].version > version {
          version := versions[i].version;
        }
      }
      assert versions[..|versions|] == versions;
      var key := AgentKey(agent, id);
      var stored := storage.Put(key, content, l.put);
      if !stored || !l.commits { return Broken; }
      versions := versions + [VersionRow(id, agent, version + 1, key, content)];
      reply := Uploaded(version + 1);
    }
  }

  // ---------------------------------------------------------------- what the rows may rely on

  predicate EvaluationStored(r: Rendering, objects: Objects, row: EvaluationRow) {
    Holds(objects, Prefixed(row.artifactPath, Artifacts(r, row.report, row.context)))
  }

  predicate VersionStored(objects: Objects, row: VersionRow) {
    row.path in objects && objects[row.path] == row.content && row.path == AgentKey(row.agent, row.id)
  }

  /** Every committed row's objects are in the store, made from what was accepted. */
  predicate NoDangling(r: Rendering, v: Vault) {
    && (forall i | 0 <= i < |v.evaluations| :: EvaluationStored(r, v.objects, v.evaluations[i]))
    && (forall i | 0 <= i < |v.versions| :: VersionStored(v.objects, v.versions[i]) && v.versions[i].agent in v.agents)
  }

  lemma KeptStays(r: Rendering, v: Vault, objects: Objects)
    requires NoDangling(r, v) && Kept(v.objects, objects)
    ensures NoDangling(r, v.(objects := objects))
  {
  }

  /** Nothing stored or committed is lost or changed, and every row may rely on its objects. */
  ghost predicate Preserved(r: Rendering, v: Vault, v': Vault) {
    && NoDangling(r, v') && Kept(v.objects, v'.objects)
    && v.evaluations <= v'.evaluations && v.versions <= v'.versions
  }

  lemma StepKeeps(r: Rendering, v: Vault, s: Step)
    requires LegalStep(s) && NoDangling(r, v)
    ensures Preserved(r, v, After(r, v, s))
  {
    match s
    case AddAgent(_) =>
    case StoreResult(id, problem, report, context, l) => ResultKeeps(r, v, id, problem, report, context, l);
    case StoreAgent(agent, id, filename, content, limit, l) =>
      KeptStays(r, v, AfterPut(v.objects, AgentKey(agent, id), content, l.put).0);
  }

  lemma ResultKeeps(r: Rendering, v: Vault, id: string, problem: string, report: Report, context: string, l: ResultLuck)
    requires |l.puts| == 6 && NoDangling(r, v)
    ensures Preserved(r, v, AfterResult(r, v, id, problem, report, context, l))
  {
    var prefix := ArtifactPrefix(id, problem);
    var items := Prefixed(prefix, Artifacts(r, report, context));
    var (objects, ok) := AfterPuts(v.objects, items, l.puts);
    PutsKeepAndHold(v.objects, items, l.puts);
    KeptStays(r, v, objects);
    assert ok ==> EvaluationStored(r, objects, EvaluationRow(id, prefix, report, context));
  }

  /** No dangling references: after any sequence of stores, with any puts failing half-way,
      leases expiring during storage and commits failing, every committed evaluation has
      its six artifacts and every agent version its file, with the accepted contents; and
      whatever was stored at any time is still stored, unchanged. */
  lemma {:induction false} ReferencesHold(r: Rendering, v: Vault, steps: seq<Step>)
    requires forall i | 0 <= i < |steps| :: LegalStep(steps[i])
    requires NoDangling(r, v)
    ensures Preserved(r, v, AfterAll(r, v, steps))
    decreases |steps|
  {
    if steps != [] {
      StepKeeps(r, v, steps[0]);
      ReferencesHold(r, After(r, v, steps[0]), steps[1..]);
    }
  }

  const EMPTY := Vault(map[], {}, [], [])

  lemma NoDanglingReferences(r: Rendering, steps: seq<Step>)
    requires forall i | 0 <= i < |steps| :: LegalStep(steps[i])
    ensures NoDangling(r, AfterAll(r, EMPTY, steps))
  {
    ReferencesHold(r, EMPTY, steps);
  }

  /** How an upload is answered: 404 for an unknown agent, 422 for a file that is not a
      nonempty agent.py within the limit that parses, both without effect, and otherwise
      the agent's next version number or, when the put or the commit fails, an error. */
  lemma UploadAnswers(v: Vault, agent: string, id: string, filename: string, content: string, limit: nat, l: UploadLuck)
    ensures var (v', reply) := AfterUpload(v, agent, id, filename, content, limit, l);
            var fits := filename == "agent.py" && |content| > 0 && |content| <= limit && l.parses;
            && (reply == Refused(404) <==> agent !in v.agents)
            && (reply == Refused(422) <==> agent in v.agents && !fits)
            && (reply.Refused? ==> v' == v)
            && (reply.Uploaded? ==> reply.version == MaxVersion(v.versions, agent) + 1
                                    && |v'.versions| == |v.versions| + 1
                                    && v'.versions[|v.versions|].version == reply.version)
            && (reply.Uploaded? <==> agent in v.agents && fits && l.commits
                                     && AfterPut(v.objects, AgentKey(agent, id), content, l.put).1)
  {
  }

  // ---------------------------------------------------------------- version numbers

  function CountOf(versions: seq<VersionRow>, agent: string): nat {
    if versions == [] then 0
    else CountOf(versions[..|versions| - 1], agent) + (if versions[|versions| - 1].agent == agent then 1 else 0)
  }

  /** Row `i` is the agent's next version after those before it. */
  predicate InSequence(versions: seq<VersionRow>) {
    forall i | 0 <= i < |versions| :: versions[i].version == CountOf(versions[..i], versions[i].agent) + 1
  }

  lemma {:induction false} MaxIsCount(versions: seq<VersionRow>, agent: string)
    requires InSequence(versions)
    ensures MaxVersion(versions, agent) == CountOf(versions, agent)
  {
    if versions != [] {
      var front := versions[..|versions| - 1];
      forall i | 0 <= i < |front| ensures front[i].version == CountOf(front[..i], front[i].agent) + 1 {
        assert front[..i] == versions[..i];
      }
      MaxIsCount(front, agent);
    }
  }

  lemma AppendInSequence(versions: seq<VersionRow>, row: VersionRow)
    requires InSequence(versions) && row.version == CountOf(versions, row.agent) + 1
    ensures InSequence(versions + [row])
  {
    var all := versions + [row];
    forall i | 0 <= i < |all| ensures all[i].version == CountOf(all[..i], all[i].agent) + 1 {
      assert all[..i] == versions[..i];
      assert i == |versions| ==> versions[..i] == versions;
    }
  }

  /** The versions of every agent are 1, 2, 3, ... in the order of their uploads; an upload
      that fails anywhere uses up no number. */
  lemma {:induction false} VersionsInSequence(r: Rendering, v: Vault, steps: seq<Step>)
    requires forall i | 0 <= i < |steps| :: LegalStep(steps[i])
    requires InSequence(v.versions)
    ensures InSequence(AfterAll(r, v, steps).versions)
    decreases |steps|
  {
    if steps != [] {
      var s := steps[0];
      if s.StoreAgent? {
        MaxIsCount(v.versions, s.agent);
        var (objects, ok) := AfterPut(v.objects, AgentKey(s.agent, s.agentId), s.content, s.upload.put);
        if s.agent in v.agents && Uploadable(s.filename, s.content, s.limit, s.upload) && ok && s.upload.commits {
          AppendInSequence(v.versions, NextVersion(v, s.agent, s.agentId, s.content));
        }
      }
      VersionsInSequence(r, After(r, v, s), steps[1..]);
    }
  }
}
