/** What the service computes from an accepted result (`CostCalculator` in services.py). */
module Scoring {
  import opened Records
  import opened Sandboxes
  import opened Evaluators

  function Count(tests: seq<TestStatus>, s: TestStatus): nat {
    if tests == [] then 0 else (if tests[0] == s then 1 else 0) + Count(tests[1..], s)
  }

  datatype Costs = Costs(
    totalTokens: Option<nat>, totalCost: Option<real>,
    total: nat, passed: nat, failed: nat, skipped: nat, score: real)

  function Calculate(m: Metrics, tests: seq<TestStatus>): Costs {
    var passed, failed := Count(tests, PASSED), Count(tests, TEST_FAILED);
    Costs(if m.inputTokens.Some? && m.outputTokens.Some? then Some(m.inputTokens.value + m.outputTokens.value)
          else None,
          if m.llmCost.Some? && m.computeCost.Some? then Some(m.llmCost.value + m.computeCost.value) else None,
          |tests|, passed, failed, Count(tests, SKIPPED),
          if passed + failed > 0 then passed as real / (passed + failed) as real else 0.0)
  }

  lemma {:induction false} CountsPartition(tests: seq<TestStatus>)
    ensures Count(tests, PASSED) + Count(tests, TEST_FAILED) + Count(tests, SKIPPED) == |tests|
  {
    if tests != [] { CountsPartition(tests[1..]); }
  }

  lemma {:induction false} CountedIff(tests: seq<TestStatus>, s: TestStatus)
    ensures Count(tests, s) > 0 <==> s in tests
  {
    if tests != [] {
      CountedIff(tests[1..], s);
      assert tests == [tests[0]] + tests[1..];
    }
  }

  lemma {:induction false} CountIsMultiplicity(tests: seq<TestStatus>, s: TestStatus)
    ensures Count(tests, s) == multiset(tests)[s]
  {
    if tests != [] {
      CountIsMultiplicity(tests[1..], s);
      assert tests == [tests[0]] + tests[1..];
    }
  }

  /** The sums are known if and only if both parts are. */
  lemma TotalsIff(m: Metrics, tests: seq<TestStatus>, tokens: nat, cost: real)
    ensures var r := Calculate(m, tests);
            && (r.totalTokens == Some(tokens) <==>
                  m.inputTokens != None && m.outputTokens != None
                      && tokens == m.inputTokens.value + m.outputTokens.value)
            && (r.totalCost == Some(cost) <==>
                  m.llmCost != None && m.computeCost != None && cost == m.llmCost.value + m.computeCost.value)
  {
  }

  /** For every list of tests: the three counts add up, the score lies between 0 and 1, is
      1 exactly when something passed and nothing failed, and 0 exactly when nothing passed. */
  lemma ScoreMeaning(m: Metrics, tests: seq<TestStatus>)
    ensures var r := Calculate(m, tests);
            && r.passed + r.failed + r.skipped == r.total == |tests|
            && r.passed == multiset(tests)[PASSED] && r.failed == multiset(tests)[TEST_FAILED]
            && r.skipped == multiset(tests)[SKIPPED]
            && 0.0 <= r.score <= 1.0
            && (r.score == 1.0 <==> PASSED in tests && TEST_FAILED !in tests)
            && (r.score == 0.0 <==> PASSED !in tests)
  {
    CountsPartition(tests);
    CountIsMultiplicity(tests, PASSED);
    CountIsMultiplicity(tests, TEST_FAILED);
    CountIsMultiplicity(tests, SKIPPED);
    CountedIff(tests, PASSED);
    CountedIff(tests, TEST_FAILED);
    var p, f := Count(tests, PASSED) as real, Count(tests, TEST_FAILED) as real;
    if p + f > 0.0 { FractionBounds(p, f); }
  }

  lemma Grows(a: real, b: real)
    requires a > 0.0 && b > 0.0
    ensures a * b > 0.0
  {
  }

  lemma FractionBounds(p: real, f: real)
    requires p >= 0.0 && f >= 0.0 && p + f > 0.0
    ensures 0.0 <= p / (p + f) <= 1.0
    ensures p / (p + f) == 1.0 <==> f == 0.0
    ensures p / (p + f) == 0.0 <==> p == 0.0
  {
    var q := p / (p + f);
    assert q * (p + f) == p;
    assert q * (p + f) == (q - 1.0) * (p + f) + (p + f);
    assert (-q) * (p + f) == -(q * (p + f));
    if q > 1.0 {
      Grows(q - 1.0, p + f);
    } else if q < 0.0 {
      Grows(-q, p + f);
    }
  }

  /** From the worker's run to the server's score: a completed evaluation scores 1 if any
      of its tests passed and 0 if all were skipped; nothing else scores 1 with the
      verifier's approval. */
  lemma ScoreOfCompleted(e: Engine, job: nat, l: Luck)
    requires ReportOf(e, job, l).status.COMPLETED?
    ensures var r := ReportOf(e, job, l);
            Calculate(r.metrics, r.tests).score == if PASSED in r.tests then 1.0 else 0.0
  {
    var r := ReportOf(e, job, l);
    ResultsAreValid(e, job, l);
    ScoreMeaning(r.metrics, r.tests);
  }
}
