/** What becomes of result files: which answers file a result as accepted or as refused, in
    one replay, in one upload and through whole lives, and whose report a file holds. */
module ResultFiles {
  import opened Records
  import opened Sandboxes
  import opened Evaluators
  import opened RunLoop
  import opened RunLoopSafety

  // ---------------------------------------------------------------- one replay

  /** A receipt that is saved, with the file renamed after it. */
  predicate Receipted(a: ReplayLuck) { a.Receipts? && a.saved && a.renamed }

  /** A status that refuses the result for good, with the file renamed after it. */
  predicate GivenUp(a: ReplayLuck) { a.Status? && a.code in {403, 404, 409} && a.renamed }

  /** The replay comes to the k-th file: all before it were pending results that were
      answered in one of these two ways. */
  predicate Comes(files: map<nat, ResultFile>, order: seq<nat>, answers: seq<ReplayLuck>, k: nat)
    requires |order| == |answers|
  {
    && k <= |order|
    && forall i | 0 <= i < k ::
         order[i] in files && files[order[i]].Pending? && (Receipted(answers[i]) || GivenUp(answers[i]))
  }

  predicate Distinct(order: seq<nat>) { forall k, l | 0 <= k < l < |order| :: order[k] != order[l] }

  /** What becomes of the k-th file of a replay. */
  predicate Becomes(files: map<nat, ResultFile>, order: seq<nat>, answers: seq<ReplayLuck>, k: nat, f: ResultFile)
    requires |order| == |answers| && k < |order| && order[k] in files
  {
    var was := files[order[k]];
    var sent := Comes(files, order, answers, k) && was.Pending?;
    && (f.Accepted? && !was.Accepted? <==> sent && Receipted(answers[k]))
    && (f.Refused? && !was.Refused? <==> sent && GivenUp(answers[k]))
    && (!(sent && (Receipted(answers[k]) || GivenUp(answers[k]))) ==> f == was)
    && (sent ==> !f.Corrupt? && f.report == was.report)
  }

  /** A replay files a pending result as accepted if and only if it came to it and got a
      receipt that could be saved, and as refused if and only if it came to it and got one of
      the three statuses; every other file is as it was, no report changes, and the replay
      ends well exactly when it has come to the end. */
  lemma {:induction false} ReplayIff(files: map<nat, ResultFile>, order: seq<nat>, answers: seq<ReplayLuck>)
    requires |order| == |answers| && Distinct(order)
    ensures var (files', settled) := Replayed(files, order, answers);
            && files'.Keys == files.Keys
            && (forall k | 0 <= k < |order| && order[k] in files ::
                  Becomes(files, order, answers, k, files'[order[k]]))
            && (forall j | j in files && j !in order :: files'[j] == files[j])
            && (settled <==> Comes(files, order, answers, |order|))
    decreases |order|
  {
    if order != [] {
      var first := order[0];
      if first in files && files[first].Pending? && (Receipted(answers[0]) || GivenUp(answers[0])) {
        var f := if Receipted(answers[0]) then Accepted(files[first].report) else Refused(files[first].report);
        var files1 := files[first := f];
        var files' := Replayed(files, order, answers).0;
        assert Replayed(files, order, answers) == Replayed(files1, order[1..], answers[1..]);
        ReplayIff(files1, order[1..], answers[1..]);
        ComesLater(files, files1, order, answers);
        assert first !in order[1..];
        forall k | 0 <= k < |order| && order[k] in files
          ensures Becomes(files, order, answers, k, files'[order[k]])
        {
          if k > 0 {
            assert order[1..][k - 1] == order[k] && files1[order[k]] == files[order[k]];
            assert Becomes(files1, order[1..], answers[1..], k - 1, files'[order[k]]);
          }
        }
      } else {
        assert forall k: nat | k > 0 :: !Comes(files, order, answers, k);
      }
    }
  }

  lemma ComesLater(files: map<nat, ResultFile>, files1: map<nat, ResultFile>, order: seq<nat>, answers: seq<ReplayLuck>)
    requires |order| == |answers| > 0 && Distinct(order)
    requires order[0] in files && files[order[0]].Pending? && (Receipted(answers[0]) || GivenUp(answers[0]))
    requires order[0] in files1 && files1 == files[order[0] := files1[order[0]]]
    ensures forall k: nat | k < |order| ::
              Comes(files, order, answers, k + 1) <==> Comes(files1, order[1..], answers[1..], k)
  {
    forall k: nat | k < |order|
      ensures Comes(files, order, answers, k + 1) <==> Comes(files1, order[1..], answers[1..], k)
    {
      if Comes(files, order, answers, k + 1) {
        forall i | 0 <= i < k
          ensures order[1..][i] in files1 && files1[order[1..][i]].Pending?
          ensures Receipted(answers[1..][i]) || GivenUp(answers[1..][i])
        {
          assert order[1..][i] == order[i + 1] && answers[1..][i] == answers[i + 1];
        }
      }
      if Comes(files1, order[1..], answers[1..], k) {
        forall i | 0 <= i < k + 1
          ensures order[i] in files && files[order[i]].Pending? && (Receipted(answers[i]) || GivenUp(answers[i]))
        {
          if i > 0 { assert order[1..][i - 1] == order[i] && answers[1..][i - 1] == answers[i]; }
        }
      }
    }
  }

  // ---------------------------------------------------------------- one upload

  /** The upload is answered by a receipt at the k-th try, after failures in transport. */
  predicate ReceiptAt(tries: seq<UploadTry>, k: nat) {
    k < |tries| && (forall i | 0 <= i < k :: tries[i] == TransportFails(false)) && tries[k].Received?
  }

  predicate Uploaded(tries: seq<UploadTry>) {
    exists k :: 0 <= k < |tries| && ReceiptAt(tries, k) && tries[k].ack in {TreeFails, Acknowledged}
  }

  predicate CleanedUp(tries: seq<UploadTry>) {
    exists k :: 0 <= k < |tries| && ReceiptAt(tries, k) && tries[k].ack == Acknowledged
  }

  lemma ReceiptLater(tries: seq<UploadTry>)
    requires tries != [] && tries[0] == TransportFails(false)
    ensures forall k: nat :: ReceiptAt(tries, k + 1) <==> ReceiptAt(tries[1..], k)
    ensures Uploaded(tries) <==> Uploaded(tries[1..])
    ensures CleanedUp(tries) <==> CleanedUp(tries[1..])
  {
    forall k: nat ensures ReceiptAt(tries, k + 1) <==> ReceiptAt(tries[1..], k) {
      assert forall i | 0 < i < |tries| :: tries[i] == tries[1..][i - 1];
    }
    if Uploaded(tries) {
      var k :| 0 <= k < |tries| && ReceiptAt(tries, k) && tries[k].ack in {TreeFails, Acknowledged};
      assert ReceiptAt(tries[1..], k - 1) && tries[1..][k - 1] == tries[k];
    }
    if Uploaded(tries[1..]) {
      var k :| 0 <= k < |tries[1..]| && ReceiptAt(tries[1..], k) && tries[1..][k].ack in {TreeFails, Acknowledged};
      assert ReceiptAt(tries, k + 1);
    }
    if CleanedUp(tries) {
      var k :| 0 <= k < |tries| && ReceiptAt(tries, k) && tries[k].ack == Acknowledged;
      assert ReceiptAt(tries[1..], k - 1) && tries[1..][k - 1] == tries[k];
    }
    if CleanedUp(tries[1..]) {
      var k :| 0 <= k < |tries[1..]| && ReceiptAt(tries[1..], k) && tries[1..][k].ack == Acknowledged;
      assert ReceiptAt(tries, k + 1);
    }
  }

  /** An upload files its result as accepted if and only if some try, after failures in
      transport only, got a receipt that could be saved and filed; the workspace goes if and
      only if, besides, it could be removed; and the worker stops exactly when every try
      failed in transport with the lease still held. */
  lemma {:induction false} UploadIff(s: Local, job: nat, tries: seq<UploadTry>)
    requires job in s.files && s.files[job].Pending?
    ensures var s' := AfterUpload(s, job, tries);
            && s'.files == (if Uploaded(tries) then s.files[job := Accepted(s.files[job].report)] else s.files)
            && s'.workspaces == (if CleanedUp(tries) then s.workspaces - {job} else s.workspaces)
            && (s'.stopped <==> s.stopped || forall i | 0 <= i < |tries| :: tries[i] == TransportFails(false))
            && s'.engine == s.engine && s'.claims == s.claims
    decreases |tries|
  {
    if tries != [] {
      if tries[0] == TransportFails(false) {
        UploadIff(s, job, tries[1..]);
        ReceiptLater(tries);
        assert forall i | 0 < i < |tries| :: tries[i] == tries[1..][i - 1];
      } else {
        assert forall k: nat | k > 0 :: !ReceiptAt(tries, k);
        assert tries[0].Received? ==> ReceiptAt(tries, 0);
      }
    }
  }

  // ---------------------------------------------------------------- one turn

  /** The worker stops after these endings. */
  predicate Stops(ending: Option<Sandboxes.Problem>) {
    ending.Some? && (ending.value == Crash || ending.value == Uncleaned || ending.value == Unexpected)
  }

  /** A job whose evaluation does not come to a result stops the worker if and only if it ends
      in anything but an ordinary exception; a job whose workspace is there is not touched. */
  lemma UnfinishedJobStopsIff(s: Local, job: nat, t: Turn)
    requires job in s.workspaces || Ending(s.engine, job, t.luck).Some? || t.cancelled
    ensures var s' := AfterJob(s, job, t);
            && (job in s.workspaces ==> s' == s)
            && (job !in s.workspaces ==> (s'.stopped <==> s.stopped || Stops(Ending(s.engine, job, t.luck))))
  {
  }

  /** A job with a result to upload stops the worker if and only if every try of the upload
      failed in transport. */
  lemma UploadedJobStopsIff(s: Local, job: nat, t: Turn)
    requires job !in s.workspaces && Ending(s.engine, job, t.luck).None? && !t.cancelled
    ensures AfterJob(s, job, t).stopped <==>
              s.stopped || forall i | 0 <= i < |t.tries| :: t.tries[i] == TransportFails(false)
  {
    UploadIff(s.(engine := AfterEvaluation(s.engine, job, t.luck), files := Filed(s.engine, job, t.luck, s.files),
                 workspaces := s.workspaces + {job}), job, t.tries);
  }

  /** The order of a turn: nothing is claimed unless the replay came to its end, a heartbeat
      that was due got through, and the poll is due; and nothing is evaluated unless a claim
      was granted and its lease entered. */
  lemma TurnIff(s: Local, t: Turn)
    requires LegalTurn(s, t)
    ensures var s' := AfterTurn(s, t);
            var replayed := Replayed(s.files, t.order, t.answers).0;
            var asks := Comes(s.files, t.order, t.answers, |t.order|) && (t.beatDue ==> t.beatSent) && t.pollDue;
            && (!asks ==> s' == s.(files := replayed))
            && (asks ==>
                  var s1 := s.(files := replayed,
                               claims := s.claims + [Seen(s.engine.present, s.engine.running,
                                                          UnsettledJobs(replayed))]);
                  s' == if t.claim.Grants? && t.entered then AfterJob(s1, t.claim.job, t) else s1)
  {
    ReplayIff(s.files, t.order, t.answers);
  }

  // ---------------------------------------------------------------- lives

  /** A replay among these answers got a receipt for `j`. */
  predicate ReplayGotReceipt(files: map<nat, ResultFile>, order: seq<nat>, answers: seq<ReplayLuck>, j: nat)
    requires |order| == |answers|
  {
    exists k :: 0 <= k < |order| && order[k] == j && Comes(files, order, answers, k) && Receipted(answers[k])
  }

  predicate ReplayGotRefusal(files: map<nat, ResultFile>, order: seq<nat>, answers: seq<ReplayLuck>, j: nat)
    requires |order| == |answers|
  {
    exists k :: 0 <= k < |order| && order[k] == j && Comes(files, order, answers, k) && GivenUp(answers[k])
  }

  /** The turn evaluates `j` and uploads its result with success. */
  predicate TurnUploads(s: Local, t: Turn, j: nat)
    requires |t.answers| == |t.order|
  {
    JobOf(s, t) == Some(j) && Ending(s.engine, j, t.luck).None? && !t.cancelled && Uploaded(t.tries)
  }

  predicate TurnEvaluates(s: Local, t: Turn, j: nat, report: Report)
    requires |t.answers| == |t.order|
  {
    JobOf(s, t) == Some(j) && report == ReportOf(s.engine, j, t.luck)
  }

  /** What a file may have become, given what has happened to `j`. */
  predicate Explained(files: map<nat, ResultFile>, files': map<nat, ResultFile>, j: nat, receipt: bool, refusal: bool) {
    j in files' && !files'[j].Corrupt? ==>
      && (files'[j].Accepted? ==> receipt || (j in files && files[j].Accepted?))
      && (files'[j].Refused? ==> refusal || (j in files && files[j].Refused?))
  }

  /** The report in the file is the one that was there. */
  predicate KeepsReport(files: map<nat, ResultFile>, files': map<nat, ResultFile>, j: nat) {
    j in files' && !files'[j].Corrupt? ==> j in files && !files[j].Corrupt? && files[j].report == files'[j].report
  }

  lemma ReplayExplains(files: map<nat, ResultFile>, order: seq<nat>, answers: seq<ReplayLuck>, j: nat)
    requires |order| == |answers| && Distinct(order)
    ensures var files' := Replayed(files, order, answers).0;
            && Explained(files, files', j, ReplayGotReceipt(files, order, answers, j),
                         ReplayGotRefusal(files, order, answers, j))
            && KeepsReport(files, files', j)
  {
    ReplayIff(files, order, answers);
    if j in order {
      var k :| 0 <= k < |order| && order[k] == j;
      if j in files { assert Becomes(files, order, answers, k, Replayed(files, order, answers).0[j]); }
    }
  }

  /** What one job makes of the files. */
  lemma JobExplains(s: Local, job: nat, t: Turn, j: nat)
    requires job !in s.workspaces
    ensures var s' := AfterJob(s, job, t);
            var ends := Ending(s.engine, job, t.luck).None? && !t.cancelled && Uploaded(t.tries);
            && Explained(s.files, s'.files, j, j == job && ends, false)
            && (j in s'.files && !s'.files[j].Corrupt? ==>
                  KeepsReport(s.files, s'.files, j)
                      || (j == job && s'.files[j].report == ReportOf(s.engine, job, t.luck)))
  {
    if Ending(s.engine, job, t.luck).None? && !t.cancelled {
      UploadIff(s.(engine := AfterEvaluation(s.engine, job, t.luck), files := Filed(s.engine, job, t.luck, s.files),
                   workspaces := s.workspaces + {job}), job, t.tries);
    }
  }

  lemma TurnExplains(s: Local, t: Turn, j: nat)
    requires LegalTurn(s, t)
    ensures var s' := AfterTurn(s, t);
            && Explained(s.files, s'.files, j,
                         ReplayGotReceipt(s.files, t.order, t.answers, j) || TurnUploads(s, t, j),
                         ReplayGotRefusal(s.files, t.order, t.answers, j))
            && (j in s'.files && !s'.files[j].Corrupt? ==>
                  KeepsReport(s.files, s'.files, j) || TurnEvaluates(s, t, j, s'.files[j].report))
  {
    ReplayExplains(s.files, t.order, t.answers, j);
    if JobOf(s, t).Some? {
      var s1 := s.(files := Replayed(s.files, t.order, t.answers).0);
      JobExplains(s1.(claims := s1.claims + [AtClaim(s1)]), JobOf(s, t).value, t, j);
    }
  }

  /** What may happen to the result of a job. */
  datatype Happening = GetsReceipt(job: nat) | GetsRefusal(job: nat) | IsMade(job: nat, report: Report)

  predicate InReplay(files: map<nat, ResultFile>, order: seq<nat>, answers: seq<ReplayLuck>, h: Happening)
    requires |order| == |answers|
  {
    match h
    case GetsReceipt(j) => ReplayGotReceipt(files, order, answers, j)
    case GetsRefusal(j) => ReplayGotRefusal(files, order, answers, j)
    case IsMade(_, _) => false
  }

  predicate InTurn(s: Local, t: Turn, h: Happening)
    requires |t.answers| == |t.order|
  {
    || InReplay(s.files, t.order, t.answers, h)
    || (h.GetsReceipt? && TurnUploads(s, t, h.job))
    || (h.IsMade? && TurnEvaluates(s, t, h.job, h.report))
  }

  predicate InTurns(s: Local, turns: seq<Turn>, h: Happening)
    requires LegalTurns(s, turns)
    decreases |turns|
  {
    turns != [] && !s.stopped && (InTurn(s, turns[0], h) || InTurns(AfterTurn(s, turns[0]), turns[1..], h))
  }

  /** It happens somewhere in the life: in a replay at a start, in a turn, or in a later process. */
  predicate InLife(s: Local, life: seq<Session>, h: Happening)
    requires LegalLife(s, life)
    decreases |life|
  {
    && life != []
    && var s0 := AfterStart(s, life[0]);
       || InReplay(s.files, life[0].order, life[0].answers, h)
       || InTurns(s0, life[0].turns, h)
       || InLife(AfterTurns(s0, life[0].turns), life[1..], h)
  }

  /** A file is explained by what it was and what has happened since. */
  predicate Accounts(files: map<nat, ResultFile>, j: nat, f: ResultFile, receipt: bool, refusal: bool, made: bool) {
    && (f.Accepted? ==> receipt || (j in files && files[j].Accepted?))
    && (f.Refused? ==> refusal || (j in files && files[j].Refused?))
    && (!f.Corrupt? ==> made || (j in files && !files[j].Corrupt? && files[j].report == f.report))
  }

  predicate AccountedTurn(s: Local, t: Turn, j: nat, f: ResultFile)
    requires LegalTurn(s, t)
  {
    Accounts(s.files, j, f, InTurn(s, t, GetsReceipt(j)), InTurn(s, t, GetsRefusal(j)),
             !f.Corrupt? && InTurn(s, t, IsMade(j, f.report)))
  }

  predicate AccountedTurns(s: Local, turns: seq<Turn>, j: nat, f: ResultFile)
    requires LegalTurns(s, turns)
  {
    Accounts(s.files, j, f, InTurns(s, turns, GetsReceipt(j)), InTurns(s, turns, GetsRefusal(j)),
             !f.Corrupt? && InTurns(s, turns, IsMade(j, f.report)))
  }

  predicate AccountedLife(s: Local, life: seq<Session>, j: nat, f: ResultFile)
    requires LegalLife(s, life)
  {
    Accounts(s.files, j, f, InLife(s, life, GetsReceipt(j)), InLife(s, life, GetsRefusal(j)),
             !f.Corrupt? && InLife(s, life, IsMade(j, f.report)))
  }

  lemma TurnAccounts(s: Local, t: Turn, j: nat)
    requires LegalTurn(s, t) && j in AfterTurn(s, t).files
    ensures AccountedTurn(s, t, j, AfterTurn(s, t).files[j])
  {
    TurnExplains(s, t, j);
  }

  lemma {:induction false} TurnsAccount(s: Local, turns: seq<Turn>, j: nat)
    requires LegalTurns(s, turns) && j in AfterTurns(s, turns).files
    ensures AccountedTurns(s, turns, j, AfterTurns(s, turns).files[j])
    decreases |turns|
  {
    if turns != [] && !s.stopped {
      var s1 := AfterTurn(s, turns[0]);
      TurnsAccount(s1, turns[1..], j);
      if j in s1.files { TurnAccounts(s, turns[0], j); }
    }
  }

  lemma {:induction false} LifeAccounts(s: Local, life: seq<Session>, j: nat)
    requires LegalLife(s, life) && j in AfterLife(s, life).files
    ensures AccountedLife(s, life, j, AfterLife(s, life).files[j])
    decreases |life|
  {
    if life != [] {
      var s0 := AfterStart(s, life[0]);
      var s1 := AfterTurns(s0, life[0].turns);
      LifeAccounts(s1, life[1..], j);
      if j in s1.files { TurnsAccount(s0, life[0].turns, j); }
      ReplayExplains(s.files, life[0].order, life[0].answers, j);
    }
  }

  /** In every life of a worker, whatever fails: a file holds the report of an evaluation of
      its own job, is accepted only if an upload or a replay of it got a receipt, and refused
      only if a replay of it was answered by 403, 404 or 409. */
  lemma FilesTellTheirHistory(life: seq<Session>, j: nat)
    requires LegalLife(FRESH, life)
    ensures var files := AfterLife(FRESH, life).files;
            j in files && !files[j].Corrupt? ==>
              && InLife(FRESH, life, IsMade(j, files[j].report))
              && (files[j].Accepted? ==> InLife(FRESH, life, GetsReceipt(j)))
              && (files[j].Refused? ==> InLife(FRESH, life, GetsRefusal(j)))
  {
    if j in AfterLife(FRESH, life).files { LifeAccounts(FRESH, life, j); }
  }
}
