/**
 * The performance limiter: fixed limits on respondents, tasks, options, estimated memory and
 * estimated execution time, and a check that lists every exceeded limit with one
 * recommendation each.
 */
module Performance {
  import opened Text

  /** The float renderings the messages use: `{:.1f}` and the plain `{}` of a float. */
  datatype Formats = Formats(fixed1: real -> string, repr: real -> string)

  /** One exceeded limit, with the value and the limit it exceeded. */
  datatype Issue =
    | TooManyRespondents(count: int, limit: int)
    | TooManyTasks(count: int, limit: int)
    | TooManyOptions(count: int, limit: int)
    | MemoryTooHigh(estimate: real, memoryLimit: int)
    | TimeTooLong(estimate: real, timeLimit: real)

  function IssueMessage(issue: Issue, fmt: Formats): string {
    match issue
    case TooManyRespondents(n, m) => "Too many respondents (" + IntToString(n) + " > " + IntToString(m) + ")"
    case TooManyTasks(n, m) => "Too many tasks per respondent (" + IntToString(n) + " > " + IntToString(m) + ")"
    case TooManyOptions(n, m) => "Too many options per task (" + IntToString(n) + " > " + IntToString(m) + ")"
    case MemoryTooHigh(e, m) => "Estimated memory usage too high (" + fmt.fixed1(e) + "MB > " + IntToString(m) + "MB)"
    case TimeTooLong(e, m) => "Estimated execution time too long (" + fmt.fixed1(e) + "s > " + fmt.repr(m) + "s)"
  }

  /** The recommendation appended together with each issue. */
  function Recommendation(issue: Issue): string {
    match issue
    case TooManyRespondents(_, m) => "Reduce to " + IntToString(m) + " or fewer respondents"
    case TooManyTasks(_, m) => "Reduce to " + IntToString(m) + " or fewer tasks per respondent"
    case TooManyOptions(_, m) => "Reduce to " + IntToString(m) + " or fewer options per task"
    case MemoryTooHigh(_, _) => "Reduce design complexity or sample size"
    case TimeTooLong(_, _) => "Reduce design complexity or sample size"
  }

  /** The result dict of `validate_design_parameters`. */
  datatype ValidationReport = ValidationReport(
    isValid: bool, issues: seq<string>, recommendations: seq<string>, memoryMb: real, executionTimeS: real)

  class PerformanceLimiter {
    const maxMemoryMb: int
    const maxExecutionTime: real
    const maxRespondents: int
    const maxTasksPerRespondent: int
    const maxOptionsPerTask: int

    /** The limits as given; the defaults are 512 MB, 30 s, 2000 respondents, 20 tasks and 5 options. */
    constructor (maxMemoryMb: int := 512, maxExecutionTime: real := 30.0, maxRespondents: int := 2000,
                 maxTasksPerRespondent: int := 20, maxOptionsPerTask: int := 5)
      ensures this.maxMemoryMb == maxMemoryMb && this.maxExecutionTime == maxExecutionTime
      ensures this.maxRespondents == maxRespondents && this.maxTasksPerRespondent == maxTasksPerRespondent
      ensures this.maxOptionsPerTask == maxOptionsPerTask
    {
      this.maxMemoryMb := maxMemoryMb;
      this.maxExecutionTime := maxExecutionTime;
      this.maxRespondents := maxRespondents;
      this.maxTasksPerRespondent := maxTasksPerRespondent;
      this.maxOptionsPerTask := maxOptionsPerTask;
    }

    /** `_estimate_memory_usage`: 50 MB, plus 0.001 MB per observation and attribute, plus 0.01 MB per level and attribute. */
    function EstimateMemoryUsage(numRespondents: int, numScreens: int, optionsPerScreen: int,
                                 numAttributes: int, totalLevels: int): (mb: real)
      ensures numRespondents >= 0 && numScreens >= 0 && optionsPerScreen >= 0 && numAttributes >= 0 && totalLevels >= 0
              ==> mb >= 50.0
    {
      var baseMemory := 50.0;
      var totalObservations := numRespondents * numScreens * optionsPerScreen;
      var dataMemory := (totalObservations * numAttributes) as real * 0.001;
      var algorithmMemory := (totalLevels * numAttributes) as real * 0.01;
      NonNegativeProduct(numRespondents, numScreens, optionsPerScreen, numAttributes);
      baseMemory + dataMemory + algorithmMemory
    }

    /** `_estimate_execution_time`: one second plus observations × levels / 10000. */
    function EstimateExecutionTime(numRespondents: int, numScreens: int, optionsPerScreen: int,
                                   numAttributes: int, totalLevels: int): (seconds: real)
      ensures numRespondents >= 0 && numScreens >= 0 && optionsPerScreen >= 0 && totalLevels >= 0
              ==> seconds >= 1.0
    {
      NonNegativeProduct(numRespondents, numScreens, optionsPerScreen, totalLevels);
      1.0 + (numRespondents * numScreens * optionsPerScreen * totalLevels) as real / 10000.0
    }

    /** The exceeded limits, in the order they are checked, given the memory and time estimates. */
    function DetectedIssues(numRespondents: int, numScreens: int, optionsPerScreen: int,
                            memoryMb: real, seconds: real): (issues: seq<Issue>)
      ensures TooManyRespondents(numRespondents, maxRespondents) in issues <==> numRespondents > maxRespondents
      ensures TooManyTasks(numScreens, maxTasksPerRespondent) in issues <==> numScreens > maxTasksPerRespondent
      ensures TooManyOptions(optionsPerScreen, maxOptionsPerTask) in issues <==> optionsPerScreen > maxOptionsPerTask
      ensures MemoryTooHigh(memoryMb, maxMemoryMb) in issues <==> memoryMb > maxMemoryMb as real
      ensures TimeTooLong(seconds, maxExecutionTime) in issues <==> seconds > maxExecutionTime
      ensures issues == [] <==> && numRespondents <= maxRespondents && numScreens <= maxTasksPerRespondent
                                && optionsPerScreen <= maxOptionsPerTask && memoryMb <= maxMemoryMb as real
                                && seconds <= maxExecutionTime
      ensures |issues| <= 5
    {
      Only(numRespondents > maxRespondents, TooManyRespondents(numRespondents, maxRespondents))
      + Only(numScreens > maxTasksPerRespondent, TooManyTasks(numScreens, maxTasksPerRespondent))
      + Only(optionsPerScreen > maxOptionsPerTask, TooManyOptions(optionsPerScreen, maxOptionsPerTask))
      + Only(memoryMb > maxMemoryMb as real, MemoryTooHigh(memoryMb, maxMemoryMb))
      + Only(seconds > maxExecutionTime, TimeTooLong(seconds, maxExecutionTime))
    }

    /**
     * `validate_design_parameters`: the checks append an issue and its recommendation together,
     * one pair per exceeded limit (equal values pass); the design is valid iff nothing was appended.
     */
    method ValidateDesignParameters(numRespondents: int, numScreens: int, optionsPerScreen: int,
                                    numAttributes: int, totalLevels: int, fmt: Formats)
      returns (report: ValidationReport)
      ensures var found := DetectedIssues(numRespondents, numScreens, optionsPerScreen, report.memoryMb, report.executionTimeS);
              && Renders(report.issues, report.recommendations, found, fmt)
              && (report.isValid <==> found == [])
      ensures report.memoryMb == EstimateMemoryUsage(numRespondents, numScreens, optionsPerScreen, numAttributes, totalLevels)
      ensures report.executionTimeS == EstimateExecutionTime(numRespondents, numScreens, optionsPerScreen, numAttributes, totalLevels)
    {
      var issues: seq<string> := [];
      var recommendations: seq<string> := [];
      ghost var found: seq<Issue> := [];
      issues, recommendations, found := AppendIf(issues, recommendations, found, fmt,
        numRespondents > maxRespondents, TooManyRespondents(numRespondents, maxRespondents));
      assert found == Only(numRespondents > maxRespondents, TooManyRespondents(numRespondents, maxRespondents));
      issues, recommendations, found := AppendIf(issues, recommendations, found, fmt,
        numScreens > maxTasksPerRespondent, TooManyTasks(numScreens, maxTasksPerRespondent));
      issues, recommendations, found := AppendIf(issues, recommendations, found, fmt,
        optionsPerScreen > maxOptionsPerTask, TooManyOptions(optionsPerScreen, maxOptionsPerTask));
      var estimatedMemory := EstimateMemoryUsage(numRespondents, numScreens, optionsPerScreen, numAttributes, totalLevels);
      issues, recommendations, found := AppendIf(issues, recommendations, found, fmt,
        estimatedMemory > maxMemoryMb as real, MemoryTooHigh(estimatedMemory, maxMemoryMb));
      var estimatedTime := EstimateExecutionTime(numRespondents, numScreens, optionsPerScreen, numAttributes, totalLevels);
      issues, recommendations, found := AppendIf(issues, recommendations, found, fmt,
        estimatedTime > maxExecutionTime, TimeTooLong(estimatedTime, maxExecutionTime));
      assert found == DetectedIssues(numRespondents, numScreens, optionsPerScreen, estimatedMemory, estimatedTime);
      report := ValidationReport(|issues| == 0, issues, recommendations, estimatedMemory, estimatedTime);
    }
  }

  /** `issues` and `recommendations` are the messages and recommendations of `found`, pair by pair. */
  ghost predicate Renders(issues: seq<string>, recommendations: seq<string>, found: seq<Issue>, fmt: Formats) {
    && |issues| == |recommendations| == |found|
    && forall i | 0 <= i < |found| ::
         issues[i] == IssueMessage(found[i], fmt) && recommendations[i] == Recommendation(found[i])
  }

  /** One check of `validate_design_parameters`: when `exceeded`, append the issue and its recommendation. */
  method AppendIf(issues: seq<string>, recommendations: seq<string>, ghost found: seq<Issue>, fmt: Formats,
                  exceeded: bool, issue: Issue)
    returns (issues': seq<string>, recommendations': seq<string>, ghost found': seq<Issue>)
    requires Renders(issues, recommendations, found, fmt)
    ensures found' == found + Only(exceeded, issue)
    ensures Renders(issues', recommendations', found', fmt)
  {
    issues', recommendations', found' := issues, recommendations, found;
    if exceeded {
      issues', recommendations', found' := issues + [IssueMessage(issue, fmt)], recommendations + [Recommendation(issue)], found + [issue];
    }
  }

  /** The issue alone when its limit is exceeded, nothing otherwise. */
  function Only(exceeded: bool, issue: Issue): (r: seq<Issue>)
    ensures issue in r <==> exceeded
    ensures |r| <= 1 && forall x | x in r :: x == issue
  {
    if exceeded then [issue] else []
  }

  /**
   * Fewer respondents never raise either estimate, so the recommended reduction of the sample
   * size can only clear a memory or time issue.
   */
  lemma {:induction false} FewerRespondentsCheaper(limiter: PerformanceLimiter, fewer: int, numRespondents: int,
                                                   numScreens: int, optionsPerScreen: int,
                                                   numAttributes: int, totalLevels: int)
    requires 0 <= fewer <= numRespondents
    requires numScreens >= 0 && optionsPerScreen >= 0 && numAttributes >= 0 && totalLevels >= 0
    ensures limiter.EstimateMemoryUsage(fewer, numScreens, optionsPerScreen, numAttributes, totalLevels)
            <= limiter.EstimateMemoryUsage(numRespondents, numScreens, optionsPerScreen, numAttributes, totalLevels)
    ensures limiter.EstimateExecutionTime(fewer, numScreens, optionsPerScreen, numAttributes, totalLevels)
            <= limiter.EstimateExecutionTime(numRespondents, numScreens, optionsPerScreen, numAttributes, totalLevels)
  {
    var perRespondent := numScreens * optionsPerScreen;
    assert perRespondent >= 0;
    ProductMonotone(fewer, numRespondents, perRespondent * numAttributes);
    ProductMonotone(fewer, numRespondents, perRespondent * totalLevels);
    assert fewer * numScreens * optionsPerScreen * numAttributes == fewer * (perRespondent * numAttributes);
    assert numRespondents * numScreens * optionsPerScreen * numAttributes == numRespondents * (perRespondent * numAttributes);
    assert fewer * numScreens * optionsPerScreen * totalLevels == fewer * (perRespondent * totalLevels);
    assert numRespondents * numScreens * optionsPerScreen * totalLevels == numRespondents * (perRespondent * totalLevels);
  }

  lemma {:induction false} ProductMonotone(x: int, y: int, c: int)
    requires x <= y && c >= 0
    ensures x * c <= y * c
  {
    assert y * c - x * c == (y - x) * c;
  }

  lemma {:induction false} NonNegativeProduct(a: int, b: int, c: int, d: int)
    ensures a >= 0 && b >= 0 && c >= 0 && d >= 0 ==> a * b * c * d >= 0
  {
    if a >= 0 && b >= 0 && c >= 0 && d >= 0 {
      assert a * b >= 0;
      assert a * b * c >= 0;
    }
  }
}
