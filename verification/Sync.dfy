/** Discovering problems at a commit and recording their versions
    (`ProblemDiscoveryService` and `ProblemSourceManager` in git_sources.py). */
module Sync {
  import opened Records

  /** A task as discovery reports it; `content` is the rest of its metadata. */
  datatype Task = Task(path: string, content: string)

  /** What reading one task.toml comes to; an error that is none of the expected ones
      escapes discovery altogether. */
  datatype Reading = Valid(content: string) | Unfit(reason: string) | Unexpected

  datatype Skip = Skip(path: string, reason: string)

  // ---------------------------------------------------------------- discovery

  predicate Distinct(folders: seq<string>) {
    forall i, j | 0 <= i < j < |folders| :: folders[i] != folders[j]
  }

  predicate HasPath(tasks: seq<Task>, p: string) { exists i :: 0 <= i < |tasks| && tasks[i].path == p }

  predicate Skipped(skips: seq<Skip>, p: string) { exists i :: 0 <= i < |skips| && skips[i].path == p }

  predicate DistinctPaths(tasks: seq<Task>) {
    forall i, j | 0 <= i < j < |tasks| :: tasks[i].path != tasks[j].path
  }

  /** A folder is where its reading says it should be. */
  predicate Sorted(read: string -> Reading, tasks: seq<Task>, skips: seq<Skip>, folder: string) {
    && !read(folder).Unexpected?
    && (HasPath(tasks, folder) <==> read(folder).Valid?)
    && (Skipped(skips, folder) <==> read(folder).Unfit?)
  }

  predicate Faithful(read: string -> Reading, tasks: seq<Task>, skips: seq<Skip>, folders: seq<string>) {
    && (forall i | 0 <= i < |tasks| :: tasks[i].path in folders && read(tasks[i].path) == Valid(tasks[i].content))
    && (forall i | 0 <= i < |skips| :: skips[i].path in folders && read(skips[i].path) == Unfit(skips[i].reason))
  }

  /** The tasks and the folders passed over, in the order of the folders. */
  predicate InOrder(tasks: seq<Task>, skips: seq<Skip>, folders: seq<string>) {
    && (forall i, j | 0 <= i < j < |tasks| :: Precedes(folders, tasks[i].path, tasks[j].path))
    && (forall i, j | 0 <= i < j < |skips| :: Precedes(folders, skips[i].path, skips[j].path))
  }

  predicate Precedes(folders: seq<string>, a: string, b: string) {
    exists k :: 0 <= k < |folders| && a in folders[..k] && folders[k] == b
  }

  lemma OneMoreInOrder(tasks: seq<Task>, skips: seq<Skip>, tasks': seq<Task>, skips': seq<Skip>, folders: seq<string>,
                       k: nat)
    requires k < |folders| && InOrder(tasks, skips, folders)
    requires forall i | 0 <= i < |tasks| :: tasks[i].path in folders[..k]
    requires forall i | 0 <= i < |skips| :: skips[i].path in folders[..k]
    requires (tasks' == tasks && |skips'| == |skips| + 1
              && skips' == skips + [Skip(folders[k], skips'[|skips|].reason)])
             || (skips' == skips && |tasks'| == |tasks| + 1
                 && tasks' == tasks + [Task(folders[k], tasks'[|tasks|].content)])
    ensures InOrder(tasks', skips', folders)
  {
    forall i, j | 0 <= i < j < |tasks'| ensures Precedes(folders, tasks'[i].path, tasks'[j].path) {
      if j == |tasks| { assert tasks'[i].path in folders[..k]; }
    }
    forall i, j | 0 <= i < j < |skips'| ensures Precedes(folders, skips'[i].path, skips'[j].path) {
      if j == |skips| { assert skips'[i].path in folders[..k]; }
    }
  }

  /** Go through the folders that hold a task.toml, in order: each ends up in exactly one
      of the two lists, unless reading one of them stops discovery. */
  method Discover(folders: seq<string>, read: string -> Reading)
      returns (ok: bool, tasks: seq<Task>, skipped: seq<Skip>)
    requires Distinct(folders)
    ensures ok <==> forall k | 0 <= k < |folders| :: !read(folders[k]).Unexpected?
    ensures ok ==> forall k | 0 <= k < |folders| :: Sorted(read, tasks, skipped, folders[k])
    ensures ok ==> |tasks| + |skipped| == |folders|
    ensures DistinctPaths(tasks) && Faithful(read, tasks, skipped, folders) && InOrder(tasks, skipped, folders)
  {
    ok, tasks, skipped := true, [], [];
    for k := 0 to |folders|
      invariant ok && |tasks| + |skipped| == k
      invariant forall j | 0 <= j < k :: Sorted(read, tasks, skipped, folders[j])
      invariant Faithful(read, tasks, skipped, folders[..k]) && DistinctPaths(tasks) && InOrder(tasks, skipped, folders)
    {
      var folder := folders[k];
      assert folders[..k + 1] == folders[..k] + [folder] && folder !in folders[..k];
      ghost var tasks0, skipped0 := tasks, skipped;
      match read(folder) {
        case Valid(content) => tasks := tasks + [Task(folder, content)];
        case Unfit(reason) => skipped := skipped + [Skip(folder, reason)];
        case Unexpected =>
          ok := false;
          return;
      }
      OneMoreInOrder(tasks0, skipped0, tasks, skipped, folders, k);
      SortedMore(read, tasks0, skipped0, tasks, skipped, folders[..k], folder);
    }
  }

  lemma SortedMore(read: string -> Reading, tasks: seq<Task>, skips: seq<Skip>, tasks': seq<Task>, skips': seq<Skip>,
                   done: seq<string>, folder: string)
    requires Faithful(read, tasks, skips, done) && folder !in done
    requires match read(folder)
             case Valid(content) => tasks' == tasks + [Task(folder, content)] && skips' == skips
             case Unfit(reason) => tasks' == tasks && skips' == skips + [Skip(folder, reason)]
             case Unexpected => false
    ensures Sorted(read, tasks', skips', folder)
    ensures forall f | f in done && Sorted(read, tasks, skips, f) :: Sorted(read, tasks', skips', f)
  {
    PathsStay(tasks, tasks', skips, skips');
    if read(folder).Valid? { assert tasks'[|tasks|].path == folder; } else { assert skips'[|skips|].path == folder; }
    forall f | f in done && Sorted(read, tasks, skips, f) ensures Sorted(read, tasks', skips', f) {
      if HasPath(tasks', f) {
        var i :| 0 <= i < |tasks'| && tasks'[i].path == f;
        assert i < |tasks| && tasks[i].path == f;
      }
      if Skipped(skips', f) {
        var i :| 0 <= i < |skips'| && skips'[i].path == f;
        assert i < |skips| && skips[i].path == f;
      }
    }
  }

  lemma PathsStay(tasks: seq<Task>, tasks': seq<Task>, skips: seq<Skip>, skips': seq<Skip>)
    requires tasks <= tasks' && skips <= skips'
    ensures forall p | HasPath(tasks, p) :: HasPath(tasks', p)
    ensures forall p | Skipped(skips, p) :: Skipped(skips', p)
  {
  }

  // ---------------------------------------------------------------- tables

  datatype Status = PENDING | READY | EMPTY | FAILED

  datatype SyncReport = NoReport | Synced(discovered: nat, created: nat, skipped: seq<Skip>) | Broken

  datatype Source = Source(url: string, branch: Option<string>, sha: Option<string>, syncedAt: Option<real>,
                           enabled: bool, status: Status, report: SyncReport)

  datatype Problem = Problem(source: nat, key: string)

  datatype Version = Version(problem: nat, url: string, branch: string, sha: string, path: string, content: string)

  datatype Catalog = Catalog(sources: seq<Source>, problems: seq<Problem>, versions: seq<Version>)

  predicate IsProblem(problems: seq<Problem>, i: nat, source: nat, key: string) {
    i < |problems| && problems[i].source == source && problems[i].key == key
  }

  predicate IsVersion(versions: seq<Version>, i: nat, url: string, sha: string, path: string) {
    i < |versions| && versions[i].url == url && versions[i].sha == sha && versions[i].path == path
  }

  predicate HasProblem(problems: seq<Problem>, source: nat, key: string) {
    exists i :: 0 <= i < |problems| && IsProblem(problems, i, source, key)
  }

  predicate HasVersion(versions: seq<Version>, url: string, sha: string, path: string) {
    exists i :: 0 <= i < |versions| && IsVersion(versions, i, url, sha, path)
  }

  /** The position of a problem, or the number of problems if there is none. */
  function ProblemAt(problems: seq<Problem>, source: nat, key: string): (i: nat)
    ensures i <= |problems| && (i < |problems| ==> IsProblem(problems, i, source, key))
    ensures forall k | 0 <= k < i :: !IsProblem(problems, k, source, key)
  {
    if problems == [] then 0
    else
      var n := |problems| - 1;
      var i := ProblemAt(problems[..n], source, key);
      assert forall k | 0 <= k < n :: IsProblem(problems[..n], k, source, key) == IsProblem(problems, k, source, key);
      if i < n then i else if IsProblem(problems, n, source, key) then n else n + 1
  }

  // ---------------------------------------------------------------- recording tasks

  /** One task: its problem, and its version at this commit, unless they are there already. */
  function AfterTask(c: Catalog, s: nat, branch: string, sha: string, task: Task): Catalog
    requires s < |c.sources|
  {
    var url := c.sources[s].url;
    var p := ProblemAt(c.problems, s, task.path);
    var problems := if p == |c.problems| then c.problems + [Problem(s, task.path)] else c.problems;
    var versions := if HasVersion(c.versions, url, sha, task.path) then c.versions
                    else c.versions + [Version(p, url, branch, sha, task.path, task.content)];
    c.(problems := problems, versions := versions)
  }

  function AfterTasks(c: Catalog, s: nat, branch: string, sha: string, tasks: seq<Task>): Catalog
    requires s < |c.sources|
    decreases |tasks|
  {
    if tasks == [] then c else AfterTasks(AfterTask(c, s, branch, sha, tasks[0]), s, branch, sha, tasks[1..])
  }

  /** What a synchronisation meets: the repository's branch, its commit, what discovery
      finds there, and whether fetching, discovery, pinning and committing succeed. */
  datatype SyncLuck = SyncLuck(fetched: bool, head: string, sha: string, discovered: bool,
                               tasks: seq<Task>, skipped: seq<Skip>, pinned: bool, committed: bool)

  predicate Succeeds(l: SyncLuck) { l.fetched && l.discovered && l.pinned && l.committed }

  function BranchOf(source: Source, l: SyncLuck): string {
    if source.branch.Some? && source.branch.value != "" then source.branch.value else l.head
  }

  /** A synchronisation that commits. */
  function Committed(c: Catalog, s: nat, l: SyncLuck, now: real): Catalog
    requires s < |c.sources|
  {
    var branch := BranchOf(c.sources[s], l);
    var c1 := AfterTasks(c, s, branch, l.sha, l.tasks);
    TasksKeepSources(c, s, branch, l.sha, l.tasks);
    c1.(sources := c.sources[s := c.sources[s].(
          branch := Some(branch), sha := Some(l.sha), syncedAt := Some(now),
          status := if l.tasks == [] then EMPTY else READY,
          report := Synced(|l.tasks|, |c1.versions| - |c.versions|, l.skipped))])
  }

  function AfterSync(c: Catalog, s: nat, l: SyncLuck, now: real): Catalog {
    if s >= |c.sources| || !c.sources[s].enabled then c
    else if Succeeds(l) then Committed(c, s, l, now)
    else c.(sources := c.sources[s := c.sources[s].(status := Status.FAILED, report := Broken)])
  }

  lemma {:induction false} TasksKeepSources(c: Catalog, s: nat, branch: string, sha: string, tasks: seq<Task>)
    requires s < |c.sources|
    ensures var c' := AfterTasks(c, s, branch, sha, tasks);
            c'.sources == c.sources && c.problems <= c'.problems && c.versions <= c'.versions
    decreases |tasks|
  {
    if tasks != [] { TasksKeepSources(AfterTask(c, s, branch, sha, tasks[0]), s, branch, sha, tasks[1..]); }
  }

  // ---------------------------------------------------------------- the manager

  class ProblemSourceManager {
    var sources: seq<Source>
    var problems: seq<Problem>
    var versions: seq<Version>

    function View(): Catalog
      reads this
    {
      Catalog(sources, problems, versions)
    }

    constructor (sources: seq<Source>)
      ensures View() == Catalog(sources, [], [])
    {
      this.sources, problems, versions := sources, [], [];
    }

    method FindProblem(s: nat, key: string) returns (p: nat)
      ensures p == ProblemAt(problems, s, key)
    {
      p := 0;
      ghost var n := 0;
      for i := 0 to |problems|
        invariant p == ProblemAt(problems[..i], s, key)
      {
        assert problems[..i + 1][..i] == problems[..i];
        if p == i {
          p := if problems[i].source == s && problems[i].key == key then i else i + 1;
        }
      }
      assert problems[..|problems|] == problems;
    }

    method FindVersion(url: string, sha: string, path: string) returns (found: bool)
      ensures found <==> HasVersion(versions, url, sha, path)
    {
      found := false;
      for i := 0 to |versions|
        invariant found <==> exists k :: 0 <= k < i && IsVersion(versions, k, url, sha, path)
      {
        if versions[i].url == url && versions[i].sha == sha && versions[i].path == path {
          assert IsVersion(versions, i, url, sha, path);
          found := true;
        }
      }
    }

    /** Record one task, unless it is recorded already. */
    method RecordTask(s: nat, branch: string, sha: string, task: Task) returns (isNew: bool)
      requires s < |sources|
      modifies `problems, `versions
      ensures View() == AfterTask(old(View()), s, branch, sha, task)
      ensures |versions| == |old(versions)| + (if isNew then 1 else 0)
    {
      var problem := FindProblem(s, task.path);
      var existing := FindVersion(sources[s].url, sha, task.path);
      if problem == |problems| {
        problems := problems + [Problem(s, task.path)];
      }
      if !existing {
        versions := versions + [Version(problem, sources[s].url, branch, sha, task.path, task.content)];
      }
      isNew := !existing;
    }

    /** The loop over discovered tasks. */
    method Record(s: nat, branch: string, sha: string, tasks: seq<Task>) returns (created: nat)
      requires s < |sources|
      modifies `problems, `versions
      ensures View() == AfterTasks(old(View()), s, branch, sha, tasks)
      ensures created == |versions| - |old(versions)|
    {
      created := 0;
      for i := 0 to |tasks|
        invariant AfterTasks(old(View()), s, branch, sha, tasks) == AfterTasks(View(), s, branch, sha, tasks[i..])
        invariant |versions| == |old(versions)| + created
      {
        assert tasks[i..][1..] == tasks[i + 1..];
        var isNew := RecordTask(s, branch, sha, tasks[i]);
        if isNew { created := created + 1; }
      }
    }

    /** The transaction that records what was discovered, up to its commit. */
    method Transact(s: nat, l: SyncLuck, now: real)
      requires s < |sources|
      modifies this
      ensures View() == Committed(old(View()), s, l, now)
    {
      var branch := BranchOf(sources[s], l);
      TasksKeepSources(View(), s, branch, l.sha, l.tasks);
      var created := Record(s, branch, l.sha, l.tasks);
      sources := sources[s := sources[s].(
                   branch := Some(branch), sha := Some(l.sha), syncedAt := Some(now),
                   status := if l.tasks == [] then EMPTY else READY,
                   report := Synced(|l.tasks|, created, l.skipped))];
    }

    /** Synchronise a source: one transaction, and on any failure a rollback and a second
        one that only says so. */
    method Sync(s: nat, l: SyncLuck, now: real) returns (ok: bool)
      modifies this
      ensures View() == AfterSync(old(View()), s, l, now)
      ensures ok <==> s < |old(sources)| && old(sources)[s].enabled && Succeeds(l)
    {
      if s >= |sources| { return false; }
      if !sources[s].enabled { return false; }
      var sources0, problems0, versions0 := sources, problems, versions;
      if l.fetched && l.discovered && l.pinned {
        Transact(s, l, now);
        if l.committed { return true; }
      }
      sources, problems, versions := sources0, problems0, versions0;
      sources := sources[s := sources[s].(status := Status.FAILED, report := Broken)];
      ok := false;
    }
  }

  // ---------------------------------------------------------------- exactly one version

  /** No two rows for one (url, sha, path), no two problems for one (source, path), and
      every version belongs to the problem of its own source and path. */
  predicate Exact(c: Catalog) {
    && (forall i, j | 0 <= i < j < |c.versions| ::
          !IsVersion(c.versions, j, c.versions[i].url, c.versions[i].sha, c.versions[i].path))
    && (forall i, j | 0 <= i < j < |c.problems| :: !IsProblem(c.problems, j, c.problems[i].source, c.problems[i].key))
    && (forall i | 0 <= i < |c.versions| :: Linked(c, c.versions[i]))
  }

  predicate Linked(c: Catalog, v: Version) {
    && v.problem < |c.problems|
    && c.problems[v.problem].key == v.path
    && c.problems[v.problem].source < |c.sources|
    && c.sources[c.problems[v.problem].source].url == v.url
  }

  lemma TaskKeepsExact(c: Catalog, s: nat, branch: string, sha: string, task: Task)
    requires Exact(c) && s < |c.sources|
    ensures var c' := AfterTask(c, s, branch, sha, task);
            Exact(c') && HasVersion(c'.versions, c.sources[s].url, sha, task.path)
                && HasProblem(c'.problems, s, task.path)
  {
    var c' := AfterTask(c, s, branch, sha, task);
    var p := ProblemAt(c.problems, s, task.path);
    assert IsProblem(c'.problems, p, s, task.path);
    if !HasVersion(c.versions, c.sources[s].url, sha, task.path) {
      assert IsVersion(c'.versions, |c.versions|, c.sources[s].url, sha, task.path);
      forall i | 0 <= i < |c.versions|
        ensures !IsVersion(c'.versions, |c.versions|, c.versions[i].url, c.versions[i].sha, c.versions[i].path)
      {
        assert !IsVersion(c.versions, i, c.sources[s].url, sha, task.path);
      }
    }
    forall i, j | 0 <= i < j < |c'.versions|
      ensures !IsVersion(c'.versions, j, c'.versions[i].url, c'.versions[i].sha, c'.versions[i].path)
    {
      if j < |c.versions| {
        assert !IsVersion(c.versions, j, c.versions[i].url, c.versions[i].sha, c.versions[i].path);
      }
    }
    forall i, j | 0 <= i < j < |c'.problems|
      ensures !IsProblem(c'.problems, j, c'.problems[i].source, c'.problems[i].key)
    {
      if j < |c.problems| {
        assert !IsProblem(c.problems, j, c.problems[i].source, c.problems[i].key);
      } else {
        assert !IsProblem(c.problems, i, s, task.path);
      }
    }
    forall i | 0 <= i < |c'.versions| ensures Linked(c', c'.versions[i]) {
      if i < |c.versions| { assert Linked(c, c.versions[i]); }
    }
  }

  predicate AllRecorded(c: Catalog, s: nat, sha: string, tasks: seq<Task>)
    requires s < |c.sources|
  {
    forall i | 0 <= i < |tasks| ::
      HasVersion(c.versions, c.sources[s].url, sha, tasks[i].path) && HasProblem(c.problems, s, tasks[i].path)
  }

  lemma RowsStay(c: Catalog, c': Catalog, s: nat, url: string, sha: string, path: string)
    requires c.problems <= c'.problems && c.versions <= c'.versions
    ensures HasVersion(c.versions, url, sha, path) ==> HasVersion(c'.versions, url, sha, path)
    ensures HasProblem(c.problems, s, path) ==> HasProblem(c'.problems, s, path)
  {
    if HasVersion(c.versions, url, sha, path) {
      var i :| 0 <= i < |c.versions| && IsVersion(c.versions, i, url, sha, path);
      assert IsVersion(c'.versions, i, url, sha, path);
    }
    if HasProblem(c.problems, s, path) {
      var i :| 0 <= i < |c.problems| && IsProblem(c.problems, i, s, path);
      assert IsProblem(c'.problems, i, s, path);
    }
  }

  /** What recording added, it added for one of the tasks. */
  predicate AddedFor(c: Catalog, c': Catalog, s: nat, sha: string, tasks: seq<Task>)
    requires s < |c.sources|
  {
    forall k | |c.versions| <= k < |c'.versions| ::
      c'.versions[k].url == c.sources[s].url && c'.versions[k].sha == sha && HasPath(tasks, c'.versions[k].path)
  }

  lemma {:induction false} TasksAddOnlyTheirs(c: Catalog, s: nat, branch: string, sha: string, tasks: seq<Task>)
    requires s < |c.sources|
    ensures AddedFor(c, AfterTasks(c, s, branch, sha, tasks), s, sha, tasks)
    decreases |tasks|
  {
    if tasks != [] {
      var c1 := AfterTask(c, s, branch, sha, tasks[0]);
      TasksAddOnlyTheirs(c1, s, branch, sha, tasks[1..]);
      TasksKeepSources(c1, s, branch, sha, tasks[1..]);
      var c' := AfterTasks(c1, s, branch, sha, tasks[1..]);
      forall k | |c.versions| <= k < |c'.versions|
        ensures c'.versions[k].url == c.sources[s].url && c'.versions[k].sha == sha
                && HasPath(tasks, c'.versions[k].path)
      {
        if k < |c1.versions| {
          assert tasks[0].path == c1.versions[k].path == c'.versions[k].path;
        } else {
          var i :| 0 <= i < |tasks[1..]| && tasks[1..][i].path == c'.versions[k].path;
          assert tasks[i + 1].path == c'.versions[k].path;
        }
      }
    }
  }

  lemma {:induction false} TasksAreRecorded(c: Catalog, s: nat, branch: string, sha: string, tasks: seq<Task>)
    requires Exact(c) && s < |c.sources|
    ensures var c' := AfterTasks(c, s, branch, sha, tasks);
            Exact(c') && |c'.sources| == |c.sources| && AllRecorded(c', s, sha, tasks)
    decreases |tasks|
  {
    if tasks != [] {
      var c1 := AfterTask(c, s, branch, sha, tasks[0]);
      TaskKeepsExact(c, s, branch, sha, tasks[0]);
      TasksAreRecorded(c1, s, branch, sha, tasks[1..]);
      TasksKeepSources(c1, s, branch, sha, tasks[1..]);
      var c' := AfterTasks(c1, s, branch, sha, tasks[1..]);
      forall i | 0 <= i < |tasks|
        ensures HasVersion(c'.versions, c'.sources[s].url, sha, tasks[i].path)
                && HasProblem(c'.problems, s, tasks[i].path)
      {
        if i == 0 {
          RowsStay(c1, c', s, c.sources[s].url, sha, tasks[0].path);
        } else {
          assert tasks[i] == tasks[1..][i - 1];
        }
      }
    }
  }

  /** Recording tasks leaves exactly one version of each, and adds no other. */
  lemma TasksRecordExactly(c: Catalog, s: nat, branch: string, sha: string, tasks: seq<Task>)
    requires Exact(c) && s < |c.sources|
    ensures var c' := AfterTasks(c, s, branch, sha, tasks);
            && c'.sources == c.sources && c.problems <= c'.problems && c.versions <= c'.versions
            && Exact(c') && AllRecorded(c', s, sha, tasks) && AddedFor(c, c', s, sha, tasks)
  {
    TasksKeepSources(c, s, branch, sha, tasks);
    TasksAreRecorded(c, s, branch, sha, tasks);
    TasksAddOnlyTheirs(c, s, branch, sha, tasks);
  }

  lemma {:induction false} RecordedAddsNothing(c: Catalog, s: nat, branch: string, sha: string, tasks: seq<Task>)
    requires s < |c.sources| && AllRecorded(c, s, sha, tasks)
    ensures AfterTasks(c, s, branch, sha, tasks) == c
    decreases |tasks|
  {
    if tasks != [] {
      var i := ProblemAt(c.problems, s, tasks[0].path);
      assert AfterTask(c, s, branch, sha, tasks[0]) == c;
      forall k | 0 <= k < |tasks[1..]|
        ensures HasVersion(c.versions, c.sources[s].url, sha, tasks[1..][k].path)
                && HasProblem(c.problems, s, tasks[1..][k].path)
      {
        assert tasks[1..][k] == tasks[k + 1];
      }
      RecordedAddsNothing(c, s, branch, sha, tasks[1..]);
    }
  }

  // ---------------------------------------------------------------- runs of synchronisations

  datatype SyncStep = SyncStep(source: nat, luck: SyncLuck, now: real)

  function AfterSyncs(c: Catalog, steps: seq<SyncStep>): Catalog
    decreases |steps|
  {
    if steps == [] then c else AfterSyncs(AfterSync(c, steps[0].source, steps[0].luck, steps[0].now), steps[1..])
  }

  predicate Works(c: Catalog, step: SyncStep) {
    step.source < |c.sources| && c.sources[step.source].enabled && Succeeds(step.luck)
  }

  /** Some successful step of a run discovered this path at this commit of this repository.
      URLs and whether a source is enabled never change. */
  predicate DiscoveredIn(c: Catalog, steps: seq<SyncStep>, url: string, sha: string, path: string) {
    exists k :: && 0 <= k < |steps| && Works(c, steps[k]) && c.sources[steps[k].source].url == url
                && steps[k].luck.sha == sha && HasPath(steps[k].luck.tasks, path)
  }

  predicate SameSources(c: Catalog, c': Catalog) {
    && |c'.sources| == |c.sources|
    && forall i | 0 <= i < |c.sources| ::
       c'.sources[i].url == c.sources[i].url && c'.sources[i].enabled == c.sources[i].enabled
  }

  lemma SyncKeepsExact(c: Catalog, step: SyncStep)
    requires Exact(c)
    ensures var c' := AfterSync(c, step.source, step.luck, step.now);
            && Exact(c') && SameSources(c, c') && c.versions <= c'.versions && c.problems <= c'.problems
            && (Works(c, step) ==> AllRecorded(c', step.source, step.luck.sha, step.luck.tasks))
            && (forall k | |c.versions| <= k < |c'.versions| ::
                  Works(c, step) && c'.versions[k].url == c.sources[step.source].url
                      && c'.versions[k].sha == step.luck.sha
                  && HasPath(step.luck.tasks, c'.versions[k].path))
  {
    var c' := AfterSync(c, step.source, step.luck, step.now);
    if Works(c, step) {
      TasksRecordExactly(c, step.source, BranchOf(c.sources[step.source], step.luck), step.luck.sha, step.luck.tasks);
    }
    forall i | 0 <= i < |c'.versions| ensures Linked(c', c'.versions[i]) {
      if Works(c, step) {
        assert Linked(AfterTasks(c, step.source, BranchOf(c.sources[step.source], step.luck), step.luck.sha,
                                 step.luck.tasks), c'.versions[i]);
      } else {
        assert Linked(c, c.versions[i]);
      }
    }
  }

  /** After any sequence of synchronisations, successful or not, of any sources, there is
      exactly one version for each (url, sha, path) that was discovered, and no other new one. */
  lemma {:induction false} VersionsAreDiscoveries(c: Catalog, steps: seq<SyncStep>, url: string, sha: string,
                                                  path: string)
    requires Exact(c)
    ensures var c' := AfterSyncs(c, steps);
            && Exact(c') && c.versions <= c'.versions && SameSources(c, c')
            && (HasVersion(c'.versions, url, sha, path) <==>
                  HasVersion(c.versions, url, sha, path) || DiscoveredIn(c, steps, url, sha, path))
    decreases |steps|
  {
    if steps != [] {
      var step := steps[0];
      var c1 := AfterSync(c, step.source, step.luck, step.now);
      SyncKeepsExact(c, step);
      VersionsAreDiscoveries(c1, steps[1..], url, sha, path);
      OneStepDiscovers(c, step, url, sha, path);
      DiscoveredFirstOrLater(c, c1, steps, url, sha, path);
    }
  }

  predicate Discovers(c: Catalog, step: SyncStep, url: string, sha: string, path: string) {
    && Works(c, step) && c.sources[step.source].url == url
    && step.luck.sha == sha && HasPath(step.luck.tasks, path)
  }

  lemma OneStepDiscovers(c: Catalog, step: SyncStep, url: string, sha: string, path: string)
    requires Exact(c)
    ensures HasVersion(AfterSync(c, step.source, step.luck, step.now).versions, url, sha, path) <==>
              HasVersion(c.versions, url, sha, path) || Discovers(c, step, url, sha, path)
  {
    var c' := AfterSync(c, step.source, step.luck, step.now);
    SyncKeepsExact(c, step);
    RowsStay(c, c', 0, url, sha, path);
    if Discovers(c, step, url, sha, path) {
      var i :| 0 <= i < |step.luck.tasks| && step.luck.tasks[i].path == path;
      assert HasVersion(c'.versions, url, sha, step.luck.tasks[i].path);
    }
    if HasVersion(c'.versions, url, sha, path) {
      var i :| 0 <= i < |c'.versions| && IsVersion(c'.versions, i, url, sha, path);
      if i < |c.versions| { assert IsVersion(c.versions, i, url, sha, path); }
    }
  }

  lemma DiscoveredFirstOrLater(c: Catalog, c1: Catalog, steps: seq<SyncStep>, url: string, sha: string, path: string)
    requires steps != [] && SameSources(c, c1)
    ensures DiscoveredIn(c, steps, url, sha, path) <==>
              Discovers(c, steps[0], url, sha, path) || DiscoveredIn(c1, steps[1..], url, sha, path)
  {
  }

  /** A version that recording added holds what discovery said of its path, and the branch. */
  predicate HoldsTask(tasks: seq<Task>, branch: string, v: Version) {
    v.branch == branch && exists i :: 0 <= i < |tasks| && tasks[i] == Task(v.path, v.content)
  }

  lemma {:induction false} NewVersionsHoldTasks(c: Catalog, s: nat, branch: string, sha: string, tasks: seq<Task>)
    requires s < |c.sources|
    ensures var c' := AfterTasks(c, s, branch, sha, tasks);
            forall k | |c.versions| <= k < |c'.versions| :: HoldsTask(tasks, branch, c'.versions[k])
    decreases |tasks|
  {
    if tasks != [] {
      var c1 := AfterTask(c, s, branch, sha, tasks[0]);
      NewVersionsHoldTasks(c1, s, branch, sha, tasks[1..]);
      TasksKeepSources(c1, s, branch, sha, tasks[1..]);
      var c' := AfterTasks(c1, s, branch, sha, tasks[1..]);
      forall k | |c.versions| <= k < |c'.versions| ensures HoldsTask(tasks, branch, c'.versions[k]) {
        if k < |c1.versions| {
          assert tasks[0] == Task(c'.versions[k].path, c'.versions[k].content);
        } else {
          var i :| 0 <= i < |tasks[1..]| && tasks[1..][i] == Task(c'.versions[k].path, c'.versions[k].content);
          assert tasks[i + 1] == tasks[1..][i];
        }
      }
    }
  }

  /** What a successful synchronisation says of its source: the branch it was given or else
      the repository's own, the commit, the time, whether there was anything to find, and
      how many tasks, how many of them new, and which folders were passed over. Every new
      version holds its task, and no version that was there before is touched. */
  lemma SuccessSays(c: Catalog, s: nat, l: SyncLuck, now: real)
    requires s < |c.sources| && c.sources[s].enabled && l.fetched && l.discovered && l.pinned && l.committed
    ensures var was, c' := c.sources[s], AfterSync(c, s, l, now);
            var branch := if was.branch.Some? && |was.branch.value| > 0 then was.branch.value else l.head;
            && |c'.sources| == |c.sources|
            && (forall i | 0 <= i < |c.sources| && i != s :: c'.sources[i] == c.sources[i])
            && c.versions <= c'.versions && c.problems <= c'.problems
            && c'.sources[s] == Source(was.url, Some(branch), Some(l.sha), Some(now), true,
                                       if |l.tasks| == 0 then EMPTY else READY,
                                       Synced(|l.tasks|, |c'.versions| - |c.versions|, l.skipped))
            && (forall k | |c.versions| <= k < |c'.versions| :: HoldsTask(l.tasks, branch, c'.versions[k]))
  {
    var branch := BranchOf(c.sources[s], l);
    TasksKeepSources(c, s, branch, l.sha, l.tasks);
    NewVersionsHoldTasks(c, s, branch, l.sha, l.tasks);
  }

  /** Synchronising again at a commit whose tasks were recorded creates nothing. */
  lemma ResyncCreatesNothing(c: Catalog, s: nat, first: SyncLuck, again: SyncLuck, t0: real, t1: real)
    requires Exact(c) && s < |c.sources| && c.sources[s].enabled && Succeeds(first) && Succeeds(again)
    requires again.sha == first.sha && again.tasks == first.tasks
    ensures var c1 := AfterSync(c, s, first, t0);
            var c2 := AfterSync(c1, s, again, t1);
            && c2.versions == c1.versions && c2.problems == c1.problems
            && c2.sources[s].report == Synced(|again.tasks|, 0, again.skipped)
  {
    var c1 := AfterSync(c, s, first, t0);
    SyncKeepsExact(c, SyncStep(s, first, t0));
    RecordedAddsNothing(c1, s, BranchOf(c1.sources[s], again), again.sha, again.tasks);
  }

  /** A failed synchronisation changes the source's status and report and nothing else. */
  lemma FailureChangesStatusOnly(c: Catalog, s: nat, l: SyncLuck, now: real)
    requires !l.fetched || !l.discovered || !l.pinned || !l.committed
    ensures var c' := AfterSync(c, s, l, now);
            && c'.versions == c.versions && c'.problems == c.problems && |c'.sources| == |c.sources|
            && (s < |c.sources| && c.sources[s].enabled ==> c'.sources[s].report == Broken)
            && (s < |c.sources| && !c.sources[s].enabled ==> c' == c)
            && (forall i | 0 <= i < |c.sources| && i != s :: c'.sources[i] == c.sources[i])
            && (s < |c.sources| ==>
                  c'.sources[s] == c.sources[s].(status := c'.sources[s].status, report := c'.sources[s].report)
                  && (c.sources[s].enabled ==> c'.sources[s].status == Status.FAILED))
  {
  }
}
