/** The worker's run loop over its disk and its containers (`run_worker`, `replay_pending`
    and `recover_sandboxes` in main.py), through failures, crashes and restarts. */
module RunLoop {
  import opened Records
  import opened Sandboxes
  import opened Evaluators

  /** What lies about at the moment a worker asks for a job. */
  datatype Seen = Seen(present: set<Container>, running: set<Container>, unsettled: set<nat>)

  const NOTHING_LEFT := Seen({}, {}, {})

  datatype Local = Local(engine: Engine, files: map<nat, ResultFile>, workspaces: set<nat>, stopped: bool,
                         claims: seq<Seen>)

  // ---------------------------------------------------------------- fortunes of the loop

  /** The reply to a replayed result, a receipt or an error status, and whether the files
      can be written and renamed. */
  datatype ReplayLuck = Receipts(saved: bool, renamed: bool) | Status(code: nat, renamed: bool) | Fails

  /** The statuses by which the service gives a result up for good. */
  const REFUSALS: set<nat> := {403, 404, 409}

  datatype Ack = Acknowledged | ReceiptFails | RenameFails | TreeFails

  datatype UploadTry = Received(ack: Ack) | TransportFails(cancelled: bool) | StatusFails

  datatype ClaimLuck = NothingQueued | ClaimFails | Grants(job: nat)

  datatype Turn = Turn(
    order: seq<nat>, answers: seq<ReplayLuck>,
    beatDue: bool, beatSent: bool, pollDue: bool,
    claim: ClaimLuck, entered: bool, luck: Luck,
    cancelled: bool, tries: seq<UploadTry>)

  /** One process: what recovery meets, in the order in which it does, and then its turns. */
  datatype Session = Session(
    folders: seq<nat>, sweeps: seq<Sweep>,
    order: seq<nat>, answers: seq<ReplayLuck>,
    turns: seq<Turn>)

  // ---------------------------------------------------------------- what it should do

  predicate Unsettled(f: ResultFile) { f.Pending? || f.Corrupt? }

  function UnsettledJobs(files: map<nat, ResultFile>): set<nat> {
    set j | j in files && Unsettled(files[j])
  }

  /** A directory listing. */
  predicate Lists(order: seq<nat>, jobs: set<nat>) {
    && (forall j | j in jobs :: j in order)
    && (forall k | 0 <= k < |order| :: order[k] in jobs)
    && (forall k, l | 0 <= k < l < |order| :: order[k] != order[l])
  }

  /** The files after a replay, and whether it came to its end. */
  function Replayed(files: map<nat, ResultFile>, order: seq<nat>, answers: seq<ReplayLuck>)
      : (map<nat, ResultFile>, bool)
    requires |order| == |answers|
    decreases |order|
  {
    if order == [] then (files, true)
    else if order[0] !in files || !files[order[0]].Pending? then (files, false)
    else match answers[0]
      case Receipts(saved, renamed) =>
        if saved && renamed then Replayed(files[order[0] := Accepted(files[order[0]].report)], order[1..], answers[1..])
        else (files, false)
      case Status(code, renamed) =>
        if code in REFUSALS && renamed
            then Replayed(files[order[0] := Refused(files[order[0]].report)], order[1..], answers[1..])
        else (files, false)
      case Fails => (files, false)
  }

  const BOTH := {AgentPhase, TestPhase}

  function Recovered(e: Engine, folders: seq<nat>, sweeps: seq<Sweep>): (Engine, bool)
    requires |folders| == |sweeps|
    decreases |folders|
  {
    if folders == [] then (e, true)
    else
      var e' := Drop(e, Removed(folders[0], BOTH, sweeps[0]));
      if SweepResult(BOTH, true, sweeps[0]).Ok? then Recovered(e', folders[1..], sweeps[1..]) else (e', false)
  }

  function AfterAck(s: Local, job: nat, ack: Ack): Local
    requires job in s.files && s.files[job].Pending?
  {
    match ack
    case ReceiptFails => s
    case RenameFails => s
    case TreeFails => s.(files := s.files[job := Accepted(s.files[job].report)])
    case Acknowledged => s.(files := s.files[job := Accepted(s.files[job].report)], workspaces := s.workspaces - {job})
  }

  function AfterUpload(s: Local, job: nat, tries: seq<UploadTry>): Local
    requires job in s.files && s.files[job].Pending?
    decreases |tries|
  {
    if tries == [] then s.(stopped := true)
    else match tries[0]
      case Received(ack) => AfterAck(s, job, ack)
      case TransportFails(cancelled) => if cancelled then s else AfterUpload(s, job, tries[1..])
      case StatusFails => s
  }

  function AfterJob(s: Local, job: nat, t: Turn): Local {
    if job in s.workspaces then s
    else
      var s' := s.(engine := AfterEvaluation(s.engine, job, t.luck), files := Filed(s.engine, job, t.luck, s.files),
                   workspaces := s.workspaces + {job});
      match Ending(s.engine, job, t.luck)
      case Some(Crash) => s'.(stopped := true)
      case Some(Uncleaned) => s'.(stopped := true)
      case Some(Unexpected) => s'.(stopped := true)
      case Some(_) => s'
      case None => if t.cancelled then s' else AfterUpload(s', job, t.tries)
  }

  function AtClaim(s: Local): Seen { Seen(s.engine.present, s.engine.running, UnsettledJobs(s.files)) }

  predicate LegalTurn(s: Local, t: Turn) {
    Lists(t.order, UnsettledJobs(s.files)) && |t.answers| == |t.order| && |t.tries| == 3
  }

  function AfterTurn(s: Local, t: Turn): Local
    requires |t.answers| == |t.order|
  {
    var (files, settled) := Replayed(s.files, t.order, t.answers);
    var s1 := s.(files := files);
    if !settled || (t.beatDue && !t.beatSent) || !t.pollDue then s1
    else
      var s2 := s1.(claims := s1.claims + [AtClaim(s1)]);
      if t.claim.Grants? && t.entered then AfterJob(s2, t.claim.job, t) else s2
  }

  predicate LegalStart(s: Local, v: Session) {
    && Lists(v.folders, s.workspaces) && |v.sweeps| == |v.folders|
    && Lists(v.order, UnsettledJobs(s.files)) && |v.answers| == |v.order|
  }

  function AfterStart(s: Local, v: Session): Local
    requires |v.sweeps| == |v.folders| && |v.answers| == |v.order|
  {
    var (e, clean) := Recovered(s.engine, v.folders, v.sweeps);
    if !clean then s.(engine := e, stopped := true)
    else
      var (files, settled) := Replayed(s.files, v.order, v.answers);
      s.(engine := e, files := files, stopped := !settled)
  }

  predicate LegalTurns(s: Local, turns: seq<Turn>)
    decreases |turns|
  {
    turns == [] || s.stopped || (LegalTurn(s, turns[0]) && LegalTurns(AfterTurn(s, turns[0]), turns[1..]))
  }

  function AfterTurns(s: Local, turns: seq<Turn>): Local
    requires LegalTurns(s, turns)
    decreases |turns|
  {
    if turns == [] || s.stopped then s else AfterTurns(AfterTurn(s, turns[0]), turns[1..])
  }

  predicate LegalLife(s: Local, life: seq<Session>)
    decreases |life|
  {
    life == [] ||
    (&& LegalStart(s, life[0])
     && LegalTurns(AfterStart(s, life[0]), life[0].turns)
     && LegalLife(AfterTurns(AfterStart(s, life[0]), life[0].turns), life[1..]))
  }

  /** The worker's disk and containers after any number of processes, each of which ended
      by itself, crashed, or was stopped by a signal. */
  function AfterLife(s: Local, life: seq<Session>): Local
    requires LegalLife(s, life)
    decreases |life|
  {
    if life == [] then s
    else AfterLife(AfterTurns(AfterStart(s, life[0]), life[0].turns), life[1..])
  }

  const FRESH := Local(Engine({}, {}, false), map[], {}, true, [])

  // ---------------------------------------------------------------- the loop

  class Worker {
    const host: Host
    const disk: Disk
    var stopped: bool
    var claims: seq<Seen>

    function View(): Local
      reads this, host, disk
    {
      Local(host.engine, disk.files, disk.workspaces, stopped, claims)
    }

    constructor (host: Host, disk: Disk, claims: seq<Seen>)
      ensures this.host == host && this.disk == disk
      ensures View() == Local(host.engine, disk.files, disk.workspaces, true, claims)
    {
      this.host, this.disk, this.claims := host, disk, claims;
      stopped := true;
    }

    /** Send every pending result again, before anything else is claimed. */
    method ReplayPending(order: seq<nat>, answers: seq<ReplayLuck>) returns (r: Try<()>)
      requires |order| == |answers|
      modifies disk
      ensures View() == old(View()).(files := Replayed(old(disk.files), order, answers).0)
      ensures r == if Replayed(old(disk.files), order, answers).1 then Ok(()) else Raised(Ordinary)
    {
      for i := 0 to |order|
        invariant View() == old(View()).(files := disk.files)
        invariant Replayed(old(disk.files), order, answers) == Replayed(disk.files, order[i..], answers[i..])
      {
        var job := order[i];
        assert order[i..][1..] == order[i + 1..] && answers[i..][1..] == answers[i + 1..];
        if job !in disk.files || !disk.files[job].Pending? {
          return Raised(Ordinary);
        }
        var report := disk.files[job].report;
        match answers[i] {
          case Receipts(saved, renamed) =>
            if !saved || !renamed { return Raised(Ordinary); }
            disk.files := disk.files[job := Accepted(report)];
          case Status(code, renamed) =>
            if code !in REFUSALS || !renamed { return Raised(Ordinary); }
            disk.files := disk.files[job := Refused(report)];
          case Fails =>
            return Raised(Ordinary);
        }
      }
      r := Ok(());
    }

    /** After a crash, remove the containers of every job that still has a workspace. */
    method RecoverSandboxes(folders: seq<nat>, sweeps: seq<Sweep>) returns (r: Try<()>)
      requires |folders| == |sweeps|
      modifies host
      ensures View() == old(View()).(engine := Recovered(old(host.engine), folders, sweeps).0)
      ensures r.Ok? <==> Recovered(old(host.engine), folders, sweeps).1
    {
      for i := 0 to |folders|
        invariant View() == old(View()).(engine := host.engine)
        invariant Recovered(old(host.engine), folders, sweeps) == Recovered(host.engine, folders[i..], sweeps[i..])
      {
        assert folders[i..][1..] == folders[i + 1..] && sweeps[i..][1..] == sweeps[i + 1..];
        var sandbox := new DockerSandbox(host, folders[i]);
        sandbox.containers, sandbox.image := BOTH, true;
        r := sandbox.Destroy(sweeps[i]);
        if r.Raised? {
          return;
        }
      }
      r := Ok(());
    }

    /** Upload a result, at most three times; the receipt is saved before the pending file
        is renamed, and the workspace goes last. */
    method Upload(job: nat, tries: seq<UploadTry>)
      requires |tries| == 3 && job in disk.files && disk.files[job].Pending?
      modifies this, disk
      ensures View() == AfterUpload(old(View()), job, tries)
    {
      for i := 0 to 3
        invariant View() == old(View())
        invariant AfterUpload(old(View()), job, tries) == AfterUpload(old(View()), job, tries[i..])
      {
        assert tries[i..][1..] == tries[i + 1..];
        match tries[i] {
          case Received(ack) =>
            if ack.ReceiptFails? || ack.RenameFails? { return; }
            disk.files := disk.files[job := Accepted(disk.files[job].report)];
            if ack.TreeFails? { return; }
            disk.workspaces := disk.workspaces - {job};
            return;
          case TransportFails(cancelled) =>
            if cancelled { return; }
          case StatusFails =>
            return;
        }
      }
      stopped := true;
    }

    method RunJob(job: nat, t: Turn)
      requires |t.tries| == 3
      modifies this, host, disk
      ensures View() == AfterJob(old(View()), job, t)
    {
      var result := Evaluate(host, disk, job, t.luck);
      match result {
        case Ok(_) =>
          if !t.cancelled {
            Upload(job, t.tries);
          }
        case Raised(problem) =>
          if problem.Crash? || problem.Uncleaned? || problem.Unexpected? {
            stopped := true;
          }
      }
    }

    /** One pass of the loop. */
    method TakeTurn(t: Turn)
      requires LegalTurn(View(), t)
      modifies this, host, disk
      ensures View() == AfterTurn(old(View()), t)
    {
      var replayed := ReplayPending(t.order, t.answers);
      if replayed.Raised? { return; }
      if t.beatDue && !t.beatSent { return; }
      if !t.pollDue { return; }
      claims := claims + [AtClaim(View())];
      match t.claim {
        case NothingQueued =>
        case ClaimFails =>
        case Grants(job) =>
          if t.entered {
            RunJob(job, t);
          }
      }
    }

    /** One process, from recovery to its end. */
    method Run(v: Session)
      requires LegalStart(View(), v) && LegalTurns(AfterStart(View(), v), v.turns)
      modifies this, host, disk
      ensures View() == AfterTurns(AfterStart(old(View()), v), v.turns)
    {
      stopped := true;
      var recovered := RecoverSandboxes(v.folders, v.sweeps);
      if recovered.Raised? { return; }
      var replayed := ReplayPending(v.order, v.answers);
      stopped := replayed.Raised?;
      var i := 0;
      assert v.turns[0..] == v.turns;
      while i < |v.turns| && !stopped
        invariant 0 <= i <= |v.turns|
        invariant LegalTurns(View(), v.turns[i..])
        invariant AfterTurns(AfterStart(old(View()), v), v.turns) == AfterTurns(View(), v.turns[i..])
      {
        assert v.turns[i..][1..] == v.turns[i + 1..];
        TakeTurn(v.turns[i]);
        i := i + 1;
      }
    }
  }
}
