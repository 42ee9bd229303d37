/** Evaluation of a workflow version on a dataset: five graders per scenario, then the mean and the gates. */
module Evaluation {
  import opened Ids

  datatype Scenario = Scenario(
    expectedOutput: nat, expectedPath: seq<Id>, dataset: nat,
    requiredPolicyNodes: set<Id>, forbiddenNodes: set<Id>, maximumSteps: Option<int>)

  /** What an execution of a scenario left behind. */
  datatype Trial = Trial(failed: bool, output: nat, path: seq<Id>, steps: nat, version: nat, allowedNodes: set<Id>)

  datatype Grades = Grades(task: bool, trajectory: bool, environment: bool, policy: bool, safety: bool)

  function Grade(t: Trial, s: Scenario, version: nat, dataset: nat): Grades {
    Grades(
      !t.failed && t.output == s.expectedOutput,
      !t.failed && (s.expectedPath == [] || t.path == s.expectedPath),
      !t.failed && t.version == version && s.dataset == dataset,
      s.requiredPolicyNodes <= t.allowedNodes,
      !t.failed && (set id | id in t.path) !! s.forbiddenNodes && (s.maximumSteps.Some? ==> t.steps <= s.maximumSteps.value))
  }

  function Milli(passed: bool): nat {
    if passed then 1000 else 0
  }

  function Score(g: Grades): nat {
    (Milli(g.task) + Milli(g.trajectory) + Milli(g.environment) + Milli(g.policy) + Milli(g.safety)) / 5
  }

  predicate AllPassed(g: Grades) {
    g.task && g.trajectory && g.environment && g.policy && g.safety
  }

  // ---------------------------------------------------------------- the evaluation row

  datatype Regression = NotConfigured | RegressionPassed | RegressionFailed

  datatype Verdict = Verdict(score: nat, delta: Option<int>, regression: Regression, gatePassed: bool)

  /** The score of the baseline evaluation: none asked for, not available, or a number. */
  datatype Baseline = NoBaseline | Unavailable | Scored(score: int)

  datatype Config = Config(
    scenarios: map<nat, Scenario>, version: nat, dataset: nat, baseline: Baseline, maximumRegression: int, minimumScore: int)

  datatype Evaluation = Evaluation(results: map<nat, Grades>, verdict: Option<Verdict>)

  /** The sum of the scores, in whatever order the rows are read. */
  ghost function Total(results: map<nat, Grades>): nat
    decreases |results|
  {
    if results == map[] then 0
    else
      var s :| s in results;
      Score(results[s]) + Total(results - {s})
  }

  ghost function Judge(results: map<nat, Grades>, c: Config): Verdict
    requires results != map[] && !c.baseline.Unavailable?
  {
    var score := Total(results) / |results|;
    var delta := if c.baseline.Scored? then Some(score - c.baseline.score) else None;
    var regression := if delta.None? then NotConfigured
                      else if delta.value >= -c.maximumRegression then RegressionPassed else RegressionFailed;
    Verdict(score, delta, regression, score >= c.minimumScore && regression != RegressionFailed)
  }

  /**
   * `settle_evaluation_execution`: a scenario that already has a result is left alone; the last
   * scenario's result completes the evaluation. None when the transaction raises.
   */
  ghost function Settle(e: Evaluation, c: Config, scenario: nat, t: Trial): Option<Evaluation>
    requires scenario in c.scenarios
  {
    if scenario in e.results then Some(e)
    else
      var results := e.results[scenario := Grade(t, c.scenarios[scenario], c.version, c.dataset)];
      if |results| != |c.scenarios| then Some(e.(results := results))
      else if c.baseline.Unavailable? then None
      else Some(Evaluation(results, Some(Judge(results, c))))
  }

  datatype Settled = Settled(scenario: nat, trial: Trial)

  const Started: Evaluation := Evaluation(map[], None)

  /** The row after scenario runs settled in the given order; a transaction that raises changes nothing. */
  ghost function After(c: Config, runs: seq<Settled>): Evaluation
    requires forall r | r in runs :: r.scenario in c.scenarios
  {
    if runs == [] then Started
    else
      var n := |runs| - 1;
      assert forall r | r in runs[..n] :: r in runs;
      var e := After(c, runs[..n]);
      var next := Settle(e, c, runs[n].scenario, runs[n].trial);
      if next.None? then e else next.value
  }

  // ---------------------------------------------------------------- sums

  lemma {:induction false} TotalWithout(results: map<nat, Grades>, s: nat)
    requires s in results
    ensures Total(results) == Score(results[s]) + Total(results - {s})
    decreases |results|
  {
    var r :| r in results && Total(results) == Score(results[r]) + Total(results - {r});
    if r != s {
      TotalWithout(results - {r}, s);
      TotalWithout(results - {s}, r);
      assert results - {r} - {s} == results - {s} - {r};
    }
  }

  lemma ScoreRange(g: Grades)
    ensures Score(g) <= 1000 && (Score(g) == 1000 <==> AllPassed(g))
  {
  }

  lemma {:induction false} TotalRange(results: map<nat, Grades>)
    ensures Total(results) <= 1000 * |results|
    ensures Total(results) == 1000 * |results| <==> forall s | s in results :: AllPassed(results[s])
    decreases |results|
  {
    if results != map[] {
      var s :| s in results;
      TotalWithout(results, s);
      ScoreRange(results[s]);
      var rest := results - {s};
      TotalRange(rest);
      assert |rest| == |results| - 1;
      assert (forall r | r in results :: AllPassed(results[r])) <==>
             AllPassed(results[s]) && forall r | r in rest :: AllPassed(rest[r]) by {
        forall r | r in results ensures r == s || (r in rest && rest[r] == results[r]) {
        }
      }
    }
  }

  /** The mean is 1000 exactly when every grader passed on every scenario. */
  lemma PerfectMean(results: map<nat, Grades>)
    requires results != map[]
    ensures Total(results) / |results| <= 1000
    ensures Total(results) / |results| == 1000 <==> forall s | s in results :: AllPassed(results[s])
  {
    TotalRange(results);
    Quotient(Total(results), |results|);
  }

  lemma Quotient(total: nat, n: nat)
    requires n > 0 && total <= 1000 * n
    ensures total / n <= 1000 && (total / n == 1000 <==> total == 1000 * n)
  {
    var q := total / n;
    assert total == q * n + total % n;
    Grows(1001, q, n);
    Grows(q, 999, n);
  }

  lemma Grows(a: nat, b: nat, n: nat)
    ensures a <= b ==> a * n <= b * n
  {
  }

  // ---------------------------------------------------------------- whole evaluations

  ghost predicate Sound(c: Config, e: Evaluation) {
    && e.results.Keys <= c.scenarios.Keys
    && (e.verdict.Some? <==> e.results.Keys == c.scenarios.Keys && e.results != map[])
    && (e.verdict.Some? ==> !c.baseline.Unavailable? && e.verdict.value == Judge(e.results, c))
  }

  lemma SubsetSize(a: set<nat>, b: set<nat>)
    requires a <= b
    ensures |a| <= |b| && (|a| == |b| <==> a == b)
  {
    assert b == a + (b - a);
    assert |b| == |a| + |b - a|;
  }

  lemma SettleSound(c: Config, e: Evaluation, scenario: nat, t: Trial)
    requires scenario in c.scenarios && Sound(c, e)
    ensures Settle(e, c, scenario, t).Some? ==> Sound(c, Settle(e, c, scenario, t).value)
  {
    if scenario !in e.results {
      var results := e.results[scenario := Grade(t, c.scenarios[scenario], c.version, c.dataset)];
      SubsetSize(results.Keys, c.scenarios.Keys);
      assert |results| == |results.Keys| && |c.scenarios| == |c.scenarios.Keys|;
    }
  }

  /**
   * In every order of settlements an evaluation is complete exactly when every scenario has its
   * result, and then its verdict is the one of those results.
   */
  lemma {:induction false} AlwaysSound(c: Config, runs: seq<Settled>)
    requires forall r | r in runs :: r.scenario in c.scenarios
    ensures Sound(c, After(c, runs))
    decreases |runs|
  {
    if runs != [] {
      var n := |runs| - 1;
      assert forall r | r in runs[..n] :: r in runs;
      AlwaysSound(c, runs[..n]);
      SettleSound(c, After(c, runs[..n]), runs[n].scenario, runs[n].trial);
    }
  }

  /** The runs are of this evaluation, and each scenario ran once. */
  ghost predicate Runs(c: Config, runs: seq<Settled>) {
    && (forall r | r in runs :: r.scenario in c.scenarios)
    && forall r, q | r in runs && q in runs && r.scenario == q.scenario :: r == q
  }

  /** Exactly the runs that settled have results, and each result is the grade of its run. */
  ghost predicate Graded(c: Config, runs: seq<Settled>, results: map<nat, Grades>)
    requires Runs(c, runs)
  {
    && (forall s :: s in results <==> exists r | r in runs :: r.scenario == s)
    && forall r | r in runs :: results[r.scenario] == GradeOf(c, r)
  }

  function GradeOf(c: Config, r: Settled): Grades
    requires r.scenario in c.scenarios
  {
    Grade(r.trial, c.scenarios[r.scenario], c.version, c.dataset)
  }

  function WithResult(c: Config, results: map<nat, Grades>, r: Settled): map<nat, Grades>
    requires r.scenario in c.scenarios
  {
    if r.scenario in results then results else results[r.scenario := GradeOf(c, r)]
  }

  lemma SettleWrites(c: Config, e: Evaluation, r: Settled)
    requires r.scenario in c.scenarios && !c.baseline.Unavailable?
    ensures Settle(e, c, r.scenario, r.trial).Some?
    ensures Settle(e, c, r.scenario, r.trial).value.results == WithResult(c, e.results, r)
  {
    hide Judge, Grade;
  }

  lemma GradedSnoc(c: Config, before: seq<Settled>, last: Settled, results: map<nat, Grades>)
    requires Runs(c, before) && Runs(c, before + [last]) && Graded(c, before, results)
    ensures Graded(c, before + [last], WithResult(c, results, last))
  {
    hide GradeOf;
    var runs, after := before + [last], WithResult(c, results, last);
    assert last in runs;
    if last.scenario in results {
      var r :| r in before && r.scenario == last.scenario;
      assert r in runs;
    }
    forall s ensures s in after <==> exists r | r in runs :: r.scenario == s {
      if s in results {
        var r :| r in before && r.scenario == s;
        assert r in runs;
      }
    }
  }

  lemma RunsBefore(c: Config, runs: seq<Settled>, n: nat)
    requires Runs(c, runs) && n <= |runs|
    ensures Runs(c, runs[..n])
  {
    forall r | r in runs[..n] ensures r in runs {
    }
  }

  lemma {:induction false} AfterGrades(c: Config, runs: seq<Settled>)
    requires Runs(c, runs) && !c.baseline.Unavailable?
    ensures Graded(c, runs, After(c, runs).results)
    decreases |runs|
  {
    hide Settle, Graded, WithResult, GradeOf;
    if runs == [] {
      NothingGraded(c);
    } else {
      var n := |runs| - 1;
      var before, last := runs[..n], runs[n];
      assert runs == before + [last];
      RunsBefore(c, runs, n);
      AfterGrades(c, before);
      SettleWrites(c, After(c, before), last);
      GradedSnoc(c, before, last, After(c, before).results);
    }
  }

  lemma NothingGraded(c: Config)
    ensures Runs(c, []) && Graded(c, [], map[])
  {
  }

  lemma SameGrades(c: Config, runs: seq<Settled>, others: seq<Settled>, a: map<nat, Grades>, b: map<nat, Grades>)
    requires Runs(c, runs) && Runs(c, others) && Graded(c, runs, a) && Graded(c, others, b)
    requires forall r :: r in runs <==> r in others
    ensures a == b
  {
    hide GradeOf;
    forall s | s in a ensures s in b && a[s] == b[s] {
      var r :| r in runs && r.scenario == s;
      assert r in others;
    }
    forall s | s in b ensures s in a {
      var r :| r in others && r.scenario == s;
      assert r in runs;
    }
  }

  /** Results, score, delta, regression and gate do not depend on the order in which runs settle. */
  lemma OrderDoesNotMatter(c: Config, runs: seq<Settled>, others: seq<Settled>)
    requires Runs(c, runs) && Runs(c, others) && !c.baseline.Unavailable?
    requires forall r :: r in runs <==> r in others
    ensures After(c, runs) == After(c, others)
  {
    hide GradeOf, Judge;
    AfterGrades(c, runs);
    AfterGrades(c, others);
    SameGrades(c, runs, others, After(c, runs).results, After(c, others).results);
    AlwaysSound(c, runs);
    AlwaysSound(c, others);
  }

  /**
   * The evaluation is complete exactly when every scenario has settled, and its score is then
   * 1000 exactly when all five graders passed on every scenario.
   */
  lemma CompletesWithLast(c: Config, runs: seq<Settled>)
    requires Runs(c, runs) && !c.baseline.Unavailable? && c.scenarios != map[]
    ensures After(c, runs).verdict.Some? <==> forall s | s in c.scenarios :: exists r | r in runs :: r.scenario == s
    ensures After(c, runs).verdict.Some? ==>
              (After(c, runs).verdict.value.score == 1000 <==>
                 forall r | r in runs :: AllPassed(GradeOf(c, r)))
  {
    hide GradeOf;
    AfterGrades(c, runs);
    AlwaysSound(c, runs);
    var results := After(c, runs).results;
    assert results.Keys == c.scenarios.Keys <==> forall s | s in c.scenarios :: exists r | r in runs :: r.scenario == s;
    if After(c, runs).verdict.Some? {
      PerfectMean(results);
      PerfectRuns(c, runs, results);
    }
  }

  lemma PerfectRuns(c: Config, runs: seq<Settled>, results: map<nat, Grades>)
    requires Runs(c, runs) && Graded(c, runs, results)
    ensures (forall s | s in results :: AllPassed(results[s])) <==>
            forall r | r in runs :: AllPassed(GradeOf(c, r))
  {
    hide GradeOf, AllPassed;
    if forall r | r in runs :: AllPassed(GradeOf(c, r)) {
      forall s | s in results ensures AllPassed(results[s]) {
        var r :| r in runs && r.scenario == s;
      }
    }
  }

  /** The first result of a scenario stands: settling it again changes nothing. */
  lemma FirstResultStands(e: Evaluation, c: Config, scenario: nat, t: Trial)
    requires scenario in c.scenarios && scenario in e.results
    ensures Settle(e, c, scenario, t) == Some(e)
  {
    hide Judge, Grade;
  }

  /** A run visits none of the nodes. */
  predicate Avoids(path: seq<Id>, nodes: set<Id>) {
    forall i | 0 <= i < |path| :: path[i] !in nodes
  }

  /** What each of the five graders asks of a run. */
  lemma GradesMean(t: Trial, s: Scenario, version: nat, dataset: nat)
    ensures var g := Grade(t, s, version, dataset);
            && (g.task <==> !t.failed && t.output == s.expectedOutput)
            && (g.trajectory <==> !t.failed && (|s.expectedPath| > 0 ==> t.path == s.expectedPath))
            && (g.environment <==> !t.failed && t.version == version && s.dataset == dataset)
            && (g.policy <==> forall id | id in s.requiredPolicyNodes :: id in t.allowedNodes)
            && (g.safety <==> !t.failed && Avoids(t.path, s.forbiddenNodes) && (s.maximumSteps.None? || t.steps <= s.maximumSteps.value))
  {
    assert (set id | id in t.path) !! s.forbiddenNodes <==> Avoids(t.path, s.forbiddenNodes) by {
      if Avoids(t.path, s.forbiddenNodes) {
        forall id | id in t.path ensures id !in s.forbiddenNodes {
        }
      }
      if (set id | id in t.path) !! s.forbiddenNodes {
        forall i | 0 <= i < |t.path| ensures t.path[i] !in s.forbiddenNodes {
          assert t.path[i] in t.path;
        }
      }
    }
  }

  /** A run scores 200 for each grader it passes. */
  lemma ScoreMeans(g: Grades)
    ensures Score(g) == 200 * ((if g.task then 1 else 0) + (if g.trajectory then 1 else 0) + (if g.environment then 1 else 0)
                               + (if g.policy then 1 else 0) + (if g.safety then 1 else 0))
  {
  }

  /** A run that failed can pass the policy grader only. */
  lemma FailedRunScore(t: Trial, s: Scenario, version: nat, dataset: nat)
    requires t.failed
    ensures Score(Grade(t, s, version, dataset)) == if s.requiredPolicyNodes <= t.allowedNodes then 200 else 0
  {
  }

  /**
   * The release gate of a complete evaluation: the mean reaches the minimum and falls short of
   * the baseline by no more than the allowed regression.
   */
  lemma GateMeans(c: Config, runs: seq<Settled>)
    requires (forall r | r in runs :: r.scenario in c.scenarios) && After(c, runs).verdict.Some?
    ensures var v := After(c, runs).verdict.value;
            && (v.gatePassed <==>
                  v.score >= c.minimumScore && (c.baseline.Scored? ==> c.baseline.score - v.score <= c.maximumRegression))
            && (v.regression == NotConfigured <==> c.baseline.NoBaseline?)
            && v.delta == (if c.baseline.Scored? then Some(v.score - c.baseline.score) else None)
            && v.score * |c.scenarios| <= Total(After(c, runs).results) < (v.score + 1) * |c.scenarios|
  {
    hide After, Judge, Total;
    AlwaysSound(c, runs);
    JudgeMeans(After(c, runs).results, c);
  }

  lemma JudgeMeans(results: map<nat, Grades>, c: Config)
    requires results != map[] && !c.baseline.Unavailable? && results.Keys == c.scenarios.Keys
    ensures var v := Judge(results, c);
            && (v.gatePassed <==>
                  v.score >= c.minimumScore && (c.baseline.Scored? ==> c.baseline.score - v.score <= c.maximumRegression))
            && (v.regression == NotConfigured <==> c.baseline.NoBaseline?)
            && v.delta == (if c.baseline.Scored? then Some(v.score - c.baseline.score) else None)
            && v.score * |c.scenarios| <= Total(results) < (v.score + 1) * |c.scenarios|
  {
    hide Total;
    assert |results| == |results.Keys| == |c.scenarios.Keys| == |c.scenarios|;
    Rounded(Total(results), |results|);
  }

  lemma Rounded(total: nat, n: nat)
    requires n > 0
    ensures total / n * n <= total < (total / n + 1) * n
  {
  }

  /** Without its baseline an evaluation never completes, whatever settles. */
  lemma NeverWithoutBaseline(c: Config, runs: seq<Settled>)
    requires (forall r | r in runs :: r.scenario in c.scenarios) && c.baseline.Unavailable?
    ensures After(c, runs).verdict.None?
  {
    AlwaysSound(c, runs);
  }

  // ---------------------------------------------------------------- the service

  class EvaluationRow {
    var results: map<nat, Grades>
    var verdict: Option<Verdict>

    function Snapshot(): Evaluation
      reads this
    {
      Evaluation(results, verdict)
    }

    constructor ()
      ensures Snapshot() == Started
    {
      results, verdict := map[], None;
    }

    /** Settles one scenario run; `raised` means that nothing was written. */
    method SettleExecution(c: Config, scenario: nat, t: Trial) returns (raised: bool)
      requires scenario in c.scenarios
      modifies this
      ensures raised <==> Settle(old(Snapshot()), c, scenario, t).None?
      ensures Snapshot() == if raised then old(Snapshot()) else Settle(old(Snapshot()), c, scenario, t).value
    {
      if scenario in results {
        return false;
      }
      var s := c.scenarios[scenario];
      var grades := Grade(t, s, c.version, c.dataset);
      var written := results[scenario := grades];
      if |written| != |c.scenarios| {
        results := written;
        return false;
      }
      var score := Mean(written);
      var delta: Option<int> := None;
      var regression := NotConfigured;
      match c.baseline {
        case Unavailable => return true;
        case NoBaseline =>
        case Scored(base) =>
          delta := Some(score - base);
          regression := if score - base >= -c.maximumRegression then RegressionPassed else RegressionFailed;
      }
      var gatePassed := score >= c.minimumScore && regression in {RegressionPassed, NotConfigured};
      results := written;
      verdict := Some(Verdict(score, delta, regression, gatePassed));
      return false;
    }
  }

  /** The mean score of the results, rounded down. */
  method Mean(results: map<nat, Grades>) returns (mean: nat)
    requires results != map[]
    ensures mean == Total(results) / |results|
  {
    hide Total;
    var total := SumScores(results);
    mean := total / |results|;
  }

  method SumScores(results: map<nat, Grades>) returns (total: nat)
    ensures total == Total(results)
  {
    hide Score;
    var rest := results;
    total := 0;
    while rest != map[]
      invariant total + Total(rest) == Total(results)
      decreases |rest|
    {
      var s :| s in rest;
      TotalWithout(rest, s);
      total := total + Score(rest[s]);
      rest := rest - {s};
    }
  }
}
