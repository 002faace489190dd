/** The control plane, its workers and the network between them. Calls and replies may
    be lost, delayed, reordered or duplicated; workers may crash and restart with the
    same identity and disk; clocks drift within a bound. */
module Cluster {
  import opened Records
  import opened Server
  import opened LeaseRules

  /** `drift` bounds how much faster the server's clock runs than any worker's;
      `grace` is how long after the deadline a worker may take to stop its sandbox;
      `cleans` says that no process goes on beside a sandbox that it has not removed. */
  datatype Setting = Setting(server: Config, drift: real, grace: real, cleans: bool)

  predicate ValidSetting(z: Setting) {
    ValidConfig(z.server) && z.drift > 0.0 && z.grace >= 0.0
  }

  /** A heartbeat call in flight: which one, and when it was sent by the worker's clock. */
  datatype Renewal = Renewal(call: nat, sentAt: real)

  datatype Stage =
    | Entering                                   // first renewal not yet acknowledged
    | Entered
    | Evaluating                                 // sandboxes may run
    | Cleaning                                   // evidence written, sandboxes being destroyed
    | Uploading(upload: Option<nat>)
    | Filing(evaluation: nat, written: bool)     // receipt received; receipt.json written?

  datatype Process =
    | Down
    | Idle
    | Claiming(call: nat)
    | Leased(job: nat, token: nat, keeper: Keeper, renewal: Option<Renewal>, stage: Stage)
    | Replaying(pending: nat, replay: nat)
    | Replayed(filed: nat, receipt: nat, saved: bool)
    | Rejecting(rejected: nat)

  /** result.pending.json, renamed to result.accepted.json or result.rejected.json. */
  datatype Evidence =
    | NoEvidence
    | Pending(token: nat, report: Report)
    | Accepted(token: nat, report: Report)
    | Rejected(token: nat, report: Report)

  datatype Folder = Folder(evidence: Evidence, receipt: Option<nat>)

  /** `left` holds the jobs whose sandboxes may still run outside any lease body. */
  datatype Node = Node(clock: real, process: Process, disk: map<nat, Folder>, left: set<nat>)

  /** A request as sent; `sentAt` is the server's clock at that moment, which nobody reads. */
  datatype Call = Call(request: Request, sentAt: real)

  datatype State = State(
    tables: Tables,
    clock: real,
    nodes: seq<Node>,
    calls: seq<Call>,
    replies: set<(nat, Reply)>)

  const START := State(EMPTY, 0.0, [], [], {})

  datatype Action =
    | Serve(op: Op)
    | Deliver(call: nat, env: Env)
    | Tick(server: real, local: seq<real>)
    | AtNode(w: nat, move: Move)

  datatype Move =
    | SendStatus(status: WorkerStatus)
    | SendClaim
    | TakeJob(job: nat, token: nat)
    | GiveUp
    | StartRenewal(event: Event)
    | RenewalAcknowledged
    | RenewalRefused
    | RenewalLost
    | Watchdog
    | Signal
    | BeginEvaluation
    | WriteEvidence(report: Report)
    | SandboxGone
    | SendUpload
    | UploadLost
    | TakeReceipt(evaluation: nat)
    | WriteReceipt
    | FileAccepted
    | LeaveLease
    | Abandon
    | SendReplay(job: nat)
    | TakeReplayReceipt(evaluation: nat)
    | TakeRejection(code: nat)
    | FileRejected
    | Crash
    | Restart

  predicate HasPending(n: Node) {
    exists j | j in n.disk :: n.disk[j].evidence.Pending?
  }

  function Lease(z: Setting): real { z.server.leaseSeconds }

  /** The sandboxes of the leased job may be running. */
  predicate InSandbox(p: Process) { p.Leased? && (p.stage.Evaluating? || p.stage.Cleaning?) }

  /** Put the process of a node into a new state. */
  function At(n: Node, p: Process): Node { n.(process := p) }

  function WithStage(n: Node, stage: Stage): Node
    requires n.process.Leased?
  {
    At(n, n.process.(stage := stage))
  }

  function WithFolder(n: Node, j: nat, f: Folder): Node { n.(disk := n.disk[j := f]) }

  // Three kinds of moves: those that keep up the lease, those that change the
  // job folder, and those that take the process from one activity to the next.

  predicate KeepsLease(m: Move) {
    || m.StartRenewal? || m.RenewalAcknowledged? || m.RenewalRefused? || m.RenewalLost? || m.Watchdog? || m.Signal?
  }

  predicate ChangesDisk(m: Move) {
    m.BeginEvaluation? || m.WriteEvidence? || m.WriteReceipt? || m.FileAccepted? || m.FileRejected?
  }

  /** When a worker process may make a move. */
  predicate CanMove(s: State, n: Node, m: Move) {
    if KeepsLease(m) then n.process.Leased? && CanKeep(s, n, m)
    else if ChangesDisk(m) then CanFile(n, m)
    else CanProceed(s, n, m)
  }

  /** The node after a move; a call sent by the move gets number `next`. */
  function Moved(z: Setting, s: State, n: Node, m: Move, next: nat): Node
    requires CanMove(s, n, m)
  {
    if KeepsLease(m) then Keep(z, s, n, m, next)
    else if ChangesDisk(m) then File(n, m)
    else Proceed(z, s, n, m, next)
  }

  predicate CanKeep(s: State, n: Node, m: Move)
    requires n.process.Leased? && KeepsLease(m)
  {
    var p := n.process;
    if m.StartRenewal? then p.renewal.None? && MaySend(p.keeper, n.clock)
    else if m.RenewalAcknowledged? then p.renewal.Some? && (p.renewal.value.call, Renewed) in s.replies
    else m.RenewalRefused? || m.RenewalLost? ==> p.renewal.Some?
  }

  function Keep(z: Setting, s: State, n: Node, m: Move, next: nat): Node
    requires n.process.Leased? && KeepsLease(m) && CanKeep(s, n, m)
  {
    var p := n.process;
    match m
    case StartRenewal(event) =>
      At(n, p.(keeper := p.keeper.(event := event), renewal := Some(Renewal(next, n.clock))))
    case RenewalAcknowledged =>
      var k := Acknowledge(p.keeper, p.renewal.value.sentAt, n.clock, Lease(z));
      At(n, p.(keeper := k, renewal := None,
               stage := if p.stage.Entering? && !k.cancelled then Entered else p.stage))
    case RenewalRefused => At(n, p.(keeper := Cancel(p.keeper), renewal := None))
    case RenewalLost => At(n, p.(renewal := None))
    case Watchdog => At(n, p.(keeper := Watch(p.keeper, n.clock)))
    case Signal => At(n, p.(keeper := Cancel(p.keeper)))
  }

  predicate CanFile(n: Node, m: Move)
    requires ChangesDisk(m)
  {
    var p := n.process;
    match m
    case BeginEvaluation => p.Leased? && p.stage.Entered? && p.job !in n.disk
    case WriteEvidence(report) =>
      p.Leased? && p.stage.Evaluating? && p.job in n.disk && ConsistentStatus(report)
    case WriteReceipt =>
      || (p.Leased? && p.stage.Filing? && p.job in n.disk)
      || (p.Replayed? && p.filed in n.disk)
    case FileAccepted =>
      || (p.Leased? && p.stage.Filing? && p.stage.written && p.job in n.disk && n.disk[p.job].evidence.Pending?)
      || (p.Replayed? && p.saved && p.filed in n.disk && n.disk[p.filed].evidence.Pending?)
    case FileRejected => p.Rejecting? && p.rejected in n.disk && n.disk[p.rejected].evidence.Pending?
  }

  function File(n: Node, m: Move): Node
    requires ChangesDisk(m) && CanFile(n, m)
  {
    var p := n.process;
    match m
    case BeginEvaluation => WithStage(WithFolder(n, p.job, Folder(NoEvidence, None)), Evaluating)
    case WriteEvidence(report) =>
      WithStage(WithFolder(n, p.job, Folder(Pending(p.token, report), n.disk[p.job].receipt)), Cleaning)
    case WriteReceipt =>
      if p.Leased? then
        WithStage(WithFolder(n, p.job, n.disk[p.job].(receipt := Some(p.stage.evaluation))),
                  Filing(p.stage.evaluation, true))
      else
        At(WithFolder(n, p.filed, n.disk[p.filed].(receipt := Some(p.receipt))), p.(saved := true))
    case FileAccepted =>
      var j := if p.Leased? then p.job else p.filed;
      var f := n.disk[j];
      At(WithFolder(n, j, f.(evidence := Accepted(f.evidence.token, f.evidence.report))), Idle)
    case FileRejected =>
      var f := n.disk[p.rejected];
      At(WithFolder(n, p.rejected, f.(evidence := Rejected(f.evidence.token, f.evidence.report))), Idle)
  }

  predicate CanProceed(s: State, n: Node, m: Move)
    requires !KeepsLease(m) && !ChangesDisk(m)
  {
    var p := n.process;
    match m
    case SendStatus(_) => !p.Down?
    // The run loop replays every pending result before it claims.
    case SendClaim => p.Idle? && !HasPending(n)
    case TakeJob(j, token) => p.Claiming? && (p.call, Granted(j, token)) in s.replies
    case GiveUp => p.Claiming? || p.Replaying?
    case SandboxGone => p.Leased? && p.stage.Cleaning?
    case SendUpload =>
      && p.Leased? && p.stage.Uploading? && p.stage.upload.None? && !p.keeper.cancelled
      && p.job in n.disk && n.disk[p.job].evidence.Pending?
    case UploadLost => p.Leased? && p.stage.Uploading? && p.stage.upload.Some?
    case TakeReceipt(e) =>
      p.Leased? && p.stage.Uploading? && p.stage.upload.Some? && (p.stage.upload.value, Receipt(e)) in s.replies
    case LeaveLease => p.Leased?
    // An exception leaves the lease body while the sandbox runs.
    case Abandon => InSandbox(p)
    case SendReplay(j) => p.Idle? && j in n.disk && n.disk[j].evidence.Pending?
    case TakeReplayReceipt(e) => p.Replaying? && (p.replay, Receipt(e)) in s.replies
    case TakeRejection(code) => p.Replaying? && code in {403, 404, 409} && (p.replay, Error(code)) in s.replies
    case Crash => true
    case Restart => p.Down?
  }

  function Proceed(z: Setting, s: State, n: Node, m: Move, next: nat): Node
    requires !KeepsLease(m) && !ChangesDisk(m) && CanProceed(s, n, m)
  {
    match m
    case SendStatus(_) => n
    case SendClaim => At(n, Claiming(next))
    case TakeJob(j, token) => At(n, Leased(j, token, Start(n.clock, Lease(z)), None, Entering))
    case GiveUp => At(n, Idle)
    case SandboxGone => WithStage(n, Uploading(None))
    case SendUpload => WithStage(n, Uploading(Some(next)))
    case UploadLost => WithStage(n, Uploading(None))
    case TakeReceipt(e) => WithStage(n, Filing(e, false))
    case LeaveLease => At(n, Idle)
    case Abandon => At(n, Idle).(left := n.left + {n.process.job})
    case SendReplay(j) => At(n, Replaying(j, next))
    case TakeReplayReceipt(e) => At(n, Replayed(n.process.pending, e, false))
    case TakeRejection(_) => At(n, Rejecting(n.process.pending))
    case Crash => At(n, Down).(left := n.left + (if InSandbox(n.process) then {n.process.job} else {}))
    // A process starts its loop only after removing every sandbox that was left.
    case Restart => At(n, Idle).(left := {})
  }

  /** The request a move puts on the network, if any. */
  function Sent(n: Node, w: nat, m: Move, s: State): Option<Request>
    requires CanMove(s, n, m)
  {
    match m
    case SendStatus(status) => Some(StatusBeat(w, status))
    case SendClaim => Some(ClaimJob(w))
    case StartRenewal(event) => Some(JobBeat(w, n.process.job, n.process.token, event))
    case SendUpload => Some(ResultOf(n, w, n.process.job))
    case SendReplay(j) => Some(ResultOf(n, w, j))
    case _ => None
  }

  /** The result call made from a job's pending file. */
  function ResultOf(n: Node, w: nat, j: nat): Request
    requires j in n.disk && n.disk[j].evidence.Pending?
  {
    SendResult(w, j, n.disk[j].evidence.token, n.disk[j].evidence.report)
  }

  ghost predicate Enabled(z: Setting, s: State, a: Action) {
    match a
    case Serve(op) => !op.OpRequest? && Legal(z.server, s.tables, op, s.clock)
    // A call may be delivered any number of times, or never.
    case Deliver(call, env) =>
      && call < |s.calls|
      && s.calls[call].sentAt <= env.at
      && Legal(z.server, s.tables, OpRequest(s.calls[call].request, env), s.clock)
    case Tick(server, local) =>
      && server >= 0.0
      && |local| == |s.nodes|
      && forall w | 0 <= w < |local| :: local[w] >= 0.0 && server <= z.drift * local[w]
    case AtNode(w, m) => w < |s.nodes| && CanMove(s, s.nodes[w], m) && (m.Abandon? ==> !z.cleans)
  }

  ghost function Next(z: Setting, s: State, a: Action): State
    requires Enabled(z, s, a)
  {
    match a
    case Serve(op) =>
      s.(tables := Apply(z.server, s.tables, op, s.clock),
         nodes := if op.OpRegister? then s.nodes + [Node(s.clock, Down, map[], {})] else s.nodes)
    case Deliver(call, env) =>
      var (tables, reply) := Handle(z.server, s.tables, s.calls[call].request, env, s.clock);
      s.(tables := tables, replies := s.replies + {(call, reply)})
    case Tick(server, local) =>
      s.(clock := s.clock + server,
         nodes := seq(|s.nodes|, w requires 0 <= w < |s.nodes| => s.nodes[w].(clock := s.nodes[w].clock + local[w])))
    case AtNode(w, m) =>
      var sent := Sent(s.nodes[w], w, m, s);
      s.(nodes := s.nodes[w := Moved(z, s, s.nodes[w], m, |s.calls|)],
         calls := if sent.Some? then s.calls + [Call(sent.value, s.clock)] else s.calls)
  }

  /** The actions lead from `s` to `s'`. */
  ghost predicate Reaches(z: Setting, s: State, actions: seq<Action>, s': State)
    decreases |actions|
  {
    if actions == [] then s' == s
    else Enabled(z, s, actions[0]) && Reaches(z, Next(z, s, actions[0]), actions[1..], s')
  }

  ghost predicate Reachable(z: Setting, s: State) {
    exists actions :: Reaches(z, START, actions, s)
  }

  // ---------------------------------------------------------------- what is claimed

  /** A sandbox of job `j` may be running on worker `w`, whose process is alive: inside the
      lease body until it has been stopped, or left behind by an earlier one. */
  predicate Executing(z: Setting, s: State, w: nat, j: nat) {
    && w < |s.nodes|
    && var p := s.nodes[w].process;
    && !p.Down?
    && ((InSandbox(p) && p.job == j && s.nodes[w].clock < p.keeper.deadline + z.grace) || j in s.nodes[w].left)
  }

  /** At most one worker executes any given submission. */
  ghost predicate NoDoubleExecution(z: Setting, s: State) {
    forall v: nat, w: nat, i: nat, j: nat | Executing(z, s, v, i) && Executing(z, s, w, j)
      && i < |s.tables.jobs| && j < |s.tables.jobs|
      && s.tables.jobs[i].submission == s.tables.jobs[j].submission :: v == w && i == j
  }
}
