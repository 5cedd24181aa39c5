/**
 The routine executor (nightly/executor.go:268-364, 891-902, 1087-1104): steps in
 order, each with its retries, graded into one outcome for the run. What a dispatch
 of a step comes back with is a parameter, and so is when the service is shut down.
 */
module Executor {
  import opened Common
  import Text

  const MAX_RETRIES := 10

  datatype Step = Step(name: string, kind: string, onFailure: string)

  datatype Result = Result(passed: bool, error: string)

  /** The result of a step's every attempt. */
  type Dispatch = (nat, nat) -> Result

  // ------------------------------------------------- on_failure

  function Policy(onFailure: string): string {
    Text.ToLower(Text.Trim(onFailure))
  }

  predicate Aborts(onFailure: string) {
    Policy(onFailure) == "" || Policy(onFailure) == "abort"
  }

  function RetryCount(onFailure: string): (n: nat)
    ensures n <= MAX_RETRIES
    ensures n > 0 ==> !Aborts(onFailure)
  {
    var s := Policy(onFailure);
    if !Text.HasPrefix(s, "retry:") then 0
    else
      var n := Text.ScanInt(s[6..]);
      if n.None? || n.value < 0 then 0 else Min(n.value, MAX_RETRIES)
  }

  /**
   Which policies stop a routine at a failed step: none at all, or "abort", in letters of either case
   and with spaces around. Everything else goes on, "continue" and "retry:N" in particular.
   */
  lemma AbortsExactly(a: string, s: string, b: string)
    requires Text.Spaces(a) && Text.Spaces(b) && Text.Trimmed(s)
    ensures Aborts(a + s + b) <==>
              s == "" || (|s| == 5 && s[0] in {'a', 'A'} && s[1] in {'b', 'B'} && s[2] in {'o', 'O'}
                          && s[3] in {'r', 'R'} && s[4] in {'t', 'T'})
  {
    Text.TrimTakesSpacesOff(a, s, b);
    assert Policy(a + s + b) == Text.ToLower(s);
    var p := Text.ToLower(s);
    if |s| == 5 {
      assert p == [p[0], p[1], p[2], p[3], p[4]];
    }
  }

  /** A policy that neither stops nor retries. */
  lemma ContinueGoesOn()
    ensures !Aborts("continue") && RetryCount("continue") == 0
  {
    Text.TrimmedStays("continue");
    assert Policy("continue")[0] == 'c';
  }

  lemma DigitsStay(s: string)
    requires Text.Digits(s)
    ensures Text.ToLower(s) == s
  {
    assert forall i :: 0 <= i < |s| ==> Text.IsDigit(s[i]) && Text.Lower(s[i]) == s[i];
  }

  lemma LowerOfSum(a: string, b: string)
    ensures Text.ToLower(a + b) == Text.ToLower(a) + Text.ToLower(b)
  {
  }

  lemma AtoiOfDigits(d: string)
    requires d != "" && Text.Digits(d)
    ensures Text.Atoi(d) == if Text.Value(d) <= Text.MAX_INT then Some(Text.Value(d)) else None
  {
    assert Text.IsDigit(d[0]);
  }

  lemma ScanDigits(d: string)
    requires d != "" && Text.Digits(d)
    ensures Text.ScanInt(d) == Text.Atoi(d)
  {
    assert Text.IsDigit(d[0]);
    assert Text.TrimLeft(d, false) == d;
    Text.AllDigitsLead(d, "");
    assert d + "" == d && "" + d == d;
  }

  /** "retry:N" asks for N more attempts, ten at the most; a number that an int can't hold asks for none. */
  lemma PrintedRetriesCount(n: nat)
    ensures RetryCount("retry:" + Text.Decimal(n)) == if n <= Text.MAX_INT then Min(n, MAX_RETRIES) else 0
  {
    var d := Text.Decimal(n);
    var s := "retry:" + d;
    assert Text.IsDigit(d[|d| - 1]) && s[|s| - 1] == d[|d| - 1] && s[0] == 'r';
    Text.TrimmedStays(s);
    LowerOfSum("retry:", d);
    DigitsStay(d);
    assert Text.ToLower("retry:") == "retry:";
    assert s[..6] == "retry:" && s[6..] == d;
    ScanDigits(d);
    AtoiOfDigits(d);
  }

  // ------------------------------------------------- one step

  /** The result of a step: of its first attempt that passes, or of its last. */
  function StepResult(dispatch: Dispatch, i: nat, attempt: nat, retries: nat): Result
    decreases retries - attempt
  {
    if dispatch(i, attempt).passed || attempt >= retries then dispatch(i, attempt)
    else StepResult(dispatch, i, attempt + 1, retries)
  }

  predicate PassesWithin(dispatch: Dispatch, i: nat, attempt: nat, retries: nat) {
    exists a: nat :: attempt <= a <= retries && dispatch(i, a).passed
  }

  lemma {:induction false} StepPassesExactly(dispatch: Dispatch, i: nat, attempt: nat, retries: nat)
    requires attempt <= retries
    ensures StepResult(dispatch, i, attempt, retries).passed <==> PassesWithin(dispatch, i, attempt, retries)
    decreases retries - attempt
  {
    if !dispatch(i, attempt).passed && attempt < retries {
      StepPassesExactly(dispatch, i, attempt + 1, retries);
      if PassesWithin(dispatch, i, attempt, retries) {
        var a: nat :| attempt <= a <= retries && dispatch(i, a).passed;
        assert attempt + 1 <= a;
      }
    }
  }

  /** runStep. A step that passes isn't tried again. */
  method RunStep(dispatch: Dispatch, i: nat, retries: nat) returns (last: Result, attempts: nat)
    ensures last == StepResult(dispatch, i, 0, retries)
    ensures last.passed <==> PassesWithin(dispatch, i, 0, retries)
    ensures 1 <= attempts <= 1 + retries && last == dispatch(i, attempts - 1)
    ensures forall a: nat :: a < attempts - 1 ==> !dispatch(i, a).passed
    ensures !last.passed ==> attempts == 1 + retries
  {
    StepPassesExactly(dispatch, i, 0, retries);
    last, attempts := Result(false, ""), 0;
    while attempts <= retries
      invariant attempts <= retries + 1
      invariant attempts > 0 ==> last == dispatch(i, attempts - 1)
      invariant forall a: nat :: a < attempts ==> !dispatch(i, a).passed
      invariant StepResult(dispatch, i, 0, retries) == StepResult(dispatch, i, Min(attempts, retries), retries)
    {
      last := dispatch(i, attempts);
      attempts := attempts + 1;
      if last.passed {
        return;
      }
    }
  }

  // ------------------------------------------------- a run

  /**
   When the service is shut down, on a clock of the moments at which the executor
   notices: 2i before step i, 2i + 1 at writing its result, and 2n at writing the
   outcome after n steps. A statement that is sent after that isn't carried out.
   */
  type Shutdown = Option<nat>

  predicate Cancelled(shutdown: Shutdown, moment: nat) {
    shutdown.Some? && shutdown.value <= moment
  }

  datatype Outcome = Outcome(phase: string, status: string, reason: Option<string>)

  /** What the loop makes of a step: how it's called, how often it's retried, and whether its failure is the end. */
  datatype Plan = Plan(title: string, retries: nat, aborts: bool)

  function PlanOf(s: Step): Plan {
    Plan(if s.name != "" then s.name else s.kind, RetryCount(s.onFailure), Aborts(s.onFailure))
  }

  function Plans(steps: seq<Step>): (plans: seq<Plan>)
    ensures |plans| == |steps| && forall i :: 0 <= i < |steps| ==> plans[i] == PlanOf(steps[i])
  {
    seq(|steps|, i requires 0 <= i < |steps| => PlanOf(steps[i]))
  }

  /** A step goes by its name, or by its kind if it has none. */
  lemma PlansFollowSteps(steps: seq<Step>, i: nat)
    requires i < |steps|
    ensures Plans(steps)[i].title == if |steps[i].name| > 0 then steps[i].name else steps[i].kind
    ensures Plans(steps)[i].retries == RetryCount(steps[i].onFailure)
    ensures Plans(steps)[i].aborts == Aborts(steps[i].onFailure)
  {
  }

  function FailureLine(i: nat, title: string, error: string): string {
    "step " + Text.Decimal(i + 1) + " (" + title + "): " + error
  }

  function AbortLine(i: nat, title: string, error: string): (line: string)
    ensures line != ""
  {
    "step " + Text.Decimal(i + 1) + " (" + title + ") failed: " + error
  }

  function Join(lines: seq<string>, sep: string): string {
    if lines == [] then "" else if |lines| == 1 then lines[0] else lines[0] + sep + Join(lines[1..], sep)
  }

  /** Steps are counted from one, and lines are set apart by the separator alone. */
  lemma LinesRead(title: string, error: string, a: string, b: string, more: seq<string>)
    ensures FailureLine(0, title, error) == "step 1 (" + title + "): " + error
    ensures AbortLine(0, title, error) == "step 1 (" + title + ") failed: " + error
    ensures Join([a], "; ") == a && Join([a, b] + more, "; ") == a + "; " + Join([b] + more, "; ")
  {
    assert Text.Decimal(1) == "1";
    assert ([a, b] + more)[1..] == [b] + more;
  }

  /** What the loop has after some steps. results: those written; ran: steps run; abort: why it stopped, if it did. */
  datatype Tally = Tally(results: seq<(nat, Result)>, ran: nat, failures: seq<string>, abort: string)

  function ResultOf(plans: seq<Plan>, dispatch: Dispatch, i: nat): Result
    requires i < |plans|
  {
    StepResult(dispatch, i, 0, plans[i].retries)
  }

  function AfterStep(plans: seq<Plan>, dispatch: Dispatch, shutdown: Shutdown, t: Tally, i: nat): Tally
    requires i < |plans|
  {
    if Cancelled(shutdown, 2 * i) then t.(abort := "executor cancelled: context canceled")
    else
      var s, r := plans[i], ResultOf(plans, dispatch, i);
      var u := t.(ran := i + 1, results := if Cancelled(shutdown, 2 * i + 1) then t.results else t.results + [(i, r)]);
      if r.passed then u
      else u.(failures := t.failures + [FailureLine(i, s.title, r.error)],
              abort := if s.aborts then AbortLine(i, s.title, r.error) else "")
  }

  /** The tally when the loop has come to step n. */
  function Tallied(plans: seq<Plan>, dispatch: Dispatch, shutdown: Shutdown, n: nat): Tally
    requires n <= |plans|
  {
    if n == 0 then Tally([], 0, [], "")
    else
      var t := Tallied(plans, dispatch, shutdown, n - 1);
      if t.abort != "" then t else AfterStep(plans, dispatch, shutdown, t, n - 1)
  }

  function Grade(t: Tally): Outcome {
    if t.abort != "" then Outcome("failed", "failed", Some(t.abort))
    else if t.failures != [] then
      Outcome("failed", "failed", Some(Text.Decimal(|t.failures|) + " step(s) failed: " + Join(t.failures, "; ")))
    else Outcome("ready", "succeeded", None)
  }

  /** The outcome as written on the run, if it's written. */
  function Finished(shutdown: Shutdown, t: Tally): Option<Outcome> {
    if Cancelled(shutdown, 2 * t.ran) then None else Some(Grade(t))
  }

  /** Nothing happens after an abort. */
  lemma {:induction false} AbortStays(plans: seq<Plan>, dispatch: Dispatch, shutdown: Shutdown, m: nat, n: nat)
    requires m <= n <= |plans| && Tallied(plans, dispatch, shutdown, m).abort != ""
    ensures Tallied(plans, dispatch, shutdown, n) == Tallied(plans, dispatch, shutdown, m)
  {
    if m < n {
      AbortStays(plans, dispatch, shutdown, m, n - 1);
    }
  }

  lemma TalliedMore(plans: seq<Plan>, dispatch: Dispatch, shutdown: Shutdown, i: nat)
    requires i < |plans| && Tallied(plans, dispatch, shutdown, i).abort == ""
    ensures var u := AfterStep(plans, dispatch, shutdown, Tallied(plans, dispatch, shutdown, i), i);
            && Tallied(plans, dispatch, shutdown, i + 1) == u
            && (u.abort != "" ==> Tallied(plans, dispatch, shutdown, |plans|) == u)
  {
    if AfterStep(plans, dispatch, shutdown, Tallied(plans, dispatch, shutdown, i), i).abort != "" {
      AbortStays(plans, dispatch, shutdown, i + 1, |plans|);
    }
  }

  class Run {
    var results: seq<(nat, Result)>
    var outcome: Option<Outcome>

    constructor ()
      ensures results == [] && outcome == None
    {
      results, outcome := [], None;
    }

    method InsertResult(shutdown: Shutdown, i: nat, r: Result)
      modifies this`results
      ensures results == if Cancelled(shutdown, 2 * i + 1) then old(results) else old(results) + [(i, r)]
    {
      if !Cancelled(shutdown, 2 * i + 1) {
        results := results + [(i, r)];
      }
    }

    method Finish(shutdown: Shutdown, ran: nat, o: Outcome)
      modifies this`outcome
      ensures outcome == if Cancelled(shutdown, 2 * ran) then old(outcome) else Some(o)
    {
      if !Cancelled(shutdown, 2 * ran) {
        outcome := Some(o);
      }
    }

    /** The grading at the end of executeSteps. */
    method Conclude(shutdown: Shutdown, ran: nat, failures: seq<string>, abortReason: string)
      requires outcome == None
      modifies this`outcome
      ensures outcome == Finished(shutdown, Tally(results, ran, failures, abortReason))
    {
      if abortReason != "" {
        Finish(shutdown, ran, Outcome("failed", "failed", Some(abortReason)));
        return;
      }
      if |failures| > 0 {
        var reason := Text.Decimal(|failures|) + " step(s) failed: " + Join(failures, "; ");
        Finish(shutdown, ran, Outcome("failed", "failed", Some(reason)));
        return;
      }
      Finish(shutdown, ran, Outcome("ready", "succeeded", None));
    }

    /** executeSteps, for a run that has only just been started. */
    method ExecuteSteps(steps: seq<Step>, dispatch: Dispatch, shutdown: Shutdown)
      requires results == [] && outcome == None
      modifies this
      ensures var t := Tallied(Plans(steps), dispatch, shutdown, |steps|);
              results == t.results && outcome == Finished(shutdown, t)
    {
      var abortReason: string, failures: seq<string>, ran := "", [], 0;
      ghost var plans := Plans(steps);
      for i := 0 to |steps|
        invariant ran == i && abortReason == "" && outcome == None
        invariant Tallied(plans, dispatch, shutdown, i) == Tally(results, ran, failures, "")
      {
        TalliedMore(plans, dispatch, shutdown, i);
        if Cancelled(shutdown, 2 * i) {
          abortReason := "executor cancelled: context canceled";
          break;
        }
        var plan := PlanOf(steps[i]);
        var res, _ := RunStep(dispatch, i, plan.retries);
        InsertResult(shutdown, i, res);
        ran := i + 1;
        if res.passed {
          continue;
        }
        failures := failures + [FailureLine(i, plan.title, res.error)];
        if plan.aborts {
          abortReason := AbortLine(i, plan.title, res.error);
          break;
        }
      }
      Conclude(shutdown, ran, failures, abortReason);
    }
  }

  // ------------------------------------------------- what a run comes to

  predicate StepPasses(plans: seq<Plan>, dispatch: Dispatch, i: nat)
    requires i < |plans|
  {
    PassesWithin(dispatch, i, 0, plans[i].retries)
  }

  /**
   Without a shutdown: the results are those of the first ran steps, and what stopped
   the loop is the last of them.
   */
  predicate Exact(plans: seq<Plan>, dispatch: Dispatch, n: nat, t: Tally)
    requires n <= |plans|
  {
    && t.ran <= n && |t.results| == t.ran
    && (forall i :: 0 <= i < t.ran ==> t.results[i] == (i, ResultOf(plans, dispatch, i)))
    && (t.failures == [] <==> forall i :: 0 <= i < t.ran ==> StepPasses(plans, dispatch, i))
    && (forall i :: 0 <= i < t.ran - 1 ==> StepPasses(plans, dispatch, i) || !plans[i].aborts)
    && (t.abort == "" ==> t.ran == n && (n > 0 ==> StepPasses(plans, dispatch, n - 1) || !plans[n - 1].aborts))
    && (t.abort != "" ==> t.ran > 0 && !StepPasses(plans, dispatch, t.ran - 1) && plans[t.ran - 1].aborts)
  }

  lemma ExactAfterPass(plans: seq<Plan>, dispatch: Dispatch, n: nat, t: Tally)
    requires n < |plans| && Exact(plans, dispatch, n, t) && t.abort == "" && StepPasses(plans, dispatch, n)
    ensures Exact(plans, dispatch, n + 1, t.(ran := n + 1, results := t.results + [(n, ResultOf(plans, dispatch, n))]))
  {
  }

  lemma ExactAfterFailure(plans: seq<Plan>, dispatch: Dispatch, n: nat, t: Tally, u: Tally)
    requires n < |plans| && Exact(plans, dispatch, n, t) && t.abort == "" && !StepPasses(plans, dispatch, n)
    requires u.ran == n + 1 && u.results == t.results + [(n, ResultOf(plans, dispatch, n))] && u.failures != []
    requires u.abort != "" <==> plans[n].aborts
    ensures Exact(plans, dispatch, n + 1, u)
  {
    assert 0 <= n < u.ran && !StepPasses(plans, dispatch, n);
  }

  lemma ExactAfterStep(plans: seq<Plan>, dispatch: Dispatch, n: nat, t: Tally)
    requires n < |plans| && Exact(plans, dispatch, n, t) && t.abort == ""
    ensures Exact(plans, dispatch, n + 1, AfterStep(plans, dispatch, None, t, n))
  {
    StepPassesExactly(dispatch, n, 0, plans[n].retries);
    if StepPasses(plans, dispatch, n) {
      ExactAfterPass(plans, dispatch, n, t);
    } else {
      ExactAfterFailure(plans, dispatch, n, t, AfterStep(plans, dispatch, None, t, n));
    }
  }

  lemma {:induction false} TallyIsExact(plans: seq<Plan>, dispatch: Dispatch, n: nat)
    requires n <= |plans|
    ensures Exact(plans, dispatch, n, Tallied(plans, dispatch, None, n))
  {
    if n > 0 {
      TallyIsExact(plans, dispatch, n - 1);
      var t := Tallied(plans, dispatch, None, n - 1);
      if t.abort == "" {
        ExactAfterStep(plans, dispatch, n - 1, t);
      }
    }
  }

  /**
   Grading, when the service isn't shut down: a run succeeds exactly if each of its steps
   passes within its attempts; the results on record are those of the steps from the first
   on, without a gap, and there are fewer of them than steps only after an abort step that failed.
   */
  lemma SucceedsExactly(plans: seq<Plan>, dispatch: Dispatch)
    ensures var t := Tallied(plans, dispatch, None, |plans|);
            && Finished(None, t).Some?
            && (Finished(None, t).value.status == "succeeded"
                <==> forall i :: 0 <= i < |plans| ==> StepPasses(plans, dispatch, i))
            && (Finished(None, t).value == Outcome("ready", "succeeded", None)
                || (Finished(None, t).value.phase == Finished(None, t).value.status == "failed"
                    && Finished(None, t).value.reason.Some?))
            && |t.results| <= |plans|
            && (forall i :: 0 <= i < |t.results| ==> t.results[i] == (i, ResultOf(plans, dispatch, i)))
            && (|t.results| < |plans| ==>
                  && |t.results| > 0
                  && !StepPasses(plans, dispatch, |t.results| - 1) && plans[|t.results| - 1].aborts)
            && (forall i :: 0 <= i < |t.results| - 1 ==> StepPasses(plans, dispatch, i) || !plans[i].aborts)
  {
    TallyIsExact(plans, dispatch, |plans|);
  }

  function LineOf(plans: seq<Plan>, dispatch: Dispatch, i: nat): string
    requires i < |plans|
  {
    FailureLine(i, plans[i].title, ResultOf(plans, dispatch, i).error)
  }

  function LastLine(plans: seq<Plan>, dispatch: Dispatch, i: nat): string
    requires i < |plans|
  {
    AbortLine(i, plans[i].title, ResultOf(plans, dispatch, i).error)
  }

  /** A line for each step up to n that has failed, by its place in the routine, its name and its last error. */
  function FailedLines(plans: seq<Plan>, dispatch: Dispatch, n: nat): seq<string>
    requires n <= |plans|
  {
    if n == 0 then []
    else if ResultOf(plans, dispatch, n - 1).passed then FailedLines(plans, dispatch, n - 1)
    else FailedLines(plans, dispatch, n - 1) + [LineOf(plans, dispatch, n - 1)]
  }

  /** The lines are those of the failed steps that were run, in the order of the routine. */
  predicate Listed(plans: seq<Plan>, dispatch: Dispatch, t: Tally) {
    && t.ran <= |plans| && t.failures == FailedLines(plans, dispatch, t.ran)
    && (t.abort != "" ==> t.ran > 0 && t.abort == LastLine(plans, dispatch, t.ran - 1))
    && (t.ran > 0 && t.abort == "" ==>
          ResultOf(plans, dispatch, t.ran - 1).passed || !plans[t.ran - 1].aborts)
  }

  lemma {:induction false} TallyIsListed(plans: seq<Plan>, dispatch: Dispatch, n: nat)
    requires n <= |plans|
    ensures Listed(plans, dispatch, Tallied(plans, dispatch, None, n))
    ensures Tallied(plans, dispatch, None, n).abort == "" ==> Tallied(plans, dispatch, None, n).ran == n
  {
    if n > 0 {
      TallyIsListed(plans, dispatch, n - 1);
    }
  }

  /** Each failed step has its line, after those of the failed steps before it, and nothing else has. */
  lemma {:induction false} FailedLinesMean(plans: seq<Plan>, dispatch: Dispatch, n: nat, i: nat)
    requires i < n <= |plans|
    ensures FailedLines(plans, dispatch, i) <= FailedLines(plans, dispatch, n)
    ensures var k := |FailedLines(plans, dispatch, i)|;
            if StepPasses(plans, dispatch, i) then |FailedLines(plans, dispatch, i + 1)| == k
            else k < |FailedLines(plans, dispatch, n)| && |FailedLines(plans, dispatch, i + 1)| == k + 1
                 && FailedLines(plans, dispatch, n)[k] == LineOf(plans, dispatch, i)
  {
    StepPassesExactly(dispatch, i, 0, plans[i].retries);
    if i + 1 < n {
      FailedLinesMean(plans, dispatch, n - 1, i);
    }
  }

  /**
   The reason that a run fails for, without a shutdown: the line of the abort step that stopped it, or
   else how many steps failed and a line for each of them, in the order of the routine.
   */
  lemma ReasonsAreListed(plans: seq<Plan>, dispatch: Dispatch)
    ensures var t, lines := Tallied(plans, dispatch, None, |plans|), FailedLines(plans, dispatch, |plans|);
            var o := Finished(None, t);
            && o.Some?
            && (t.abort != "" ==> 0 < t.ran <= |plans| && o.value.reason == Some(LastLine(plans, dispatch, t.ran - 1)))
            && (t.abort == "" && lines == [] ==> o.value.reason == None)
            && (t.abort == "" && lines != [] ==>
                  o.value.reason == Some(Text.Decimal(|lines|) + " step(s) failed: " + Join(lines, "; ")))
  {
    TallyIsListed(plans, dispatch, |plans|);
  }

  /** What a shutdown leaves of a run: the same steps, fewer of them, and results that aren't written. */
  predicate Curtailed(t: Tally, whole: Tally, shutdown: Shutdown) {
    && t.ran <= whole.ran && t.results <= whole.results
    && (t.ran < whole.ran ==> t.abort != "" && Cancelled(shutdown, 2 * t.ran))
    && (!Cancelled(shutdown, 2 * t.ran) ==> t == whole)
  }

  lemma {:induction false} TallyIsCurtailed(plans: seq<Plan>, dispatch: Dispatch, shutdown: Shutdown, n: nat)
    requires n <= |plans|
    ensures Curtailed(Tallied(plans, dispatch, shutdown, n), Tallied(plans, dispatch, None, n), shutdown)
  {
    if n > 0 {
      TallyIsCurtailed(plans, dispatch, shutdown, n - 1);
    }
  }

  /**
   A shutdown never grades a run: an outcome is written exactly if the service is still up
   after the last step, and then it's the outcome that the run would have had anyway. In
   particular a cancelled run is not marked failed.
   */
  lemma ShutdownLeavesTheRunOpen(plans: seq<Plan>, dispatch: Dispatch, shutdown: Shutdown)
    ensures var t, whole := Tallied(plans, dispatch, shutdown, |plans|), Tallied(plans, dispatch, None, |plans|);
            && (Finished(shutdown, t) == None <==> shutdown.Some? && shutdown.value <= 2 * whole.ran)
            && (Finished(shutdown, t).Some? ==>
                Finished(shutdown, t) == Finished(None, whole) && t.results == whole.results)
            && t.results <= whole.results
  {
    TallyIsCurtailed(plans, dispatch, shutdown, |plans|);
  }
}
