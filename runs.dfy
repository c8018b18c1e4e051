// How the calls a method made relate to the calls it was meant to make, when
// every call to the service may fail and a failure ends the method.

module Runs {
  import opened Sheets

  /** The log went from `before` to `after` by making the first calls of `plan`, in order. */
  predicate Made(before: seq<Call>, after: seq<Call>, plan: seq<Call>) {
    && |before| <= |after| <= |before| + |plan|
    && after == before + plan[..|after| - |before|]
  }

  /** Every call made but the last one succeeded; the method reports the last call's failure, or
    * `Success` only once the whole plan was made and its last call succeeded. */
  predicate Ended(oracle: map<nat, Status>, before: seq<Call>, after: seq<Call>, plan: seq<Call>, status: Status)
    requires |before| <= |after|
  {
    && (forall j :: |before| <= j < |after| - 1 ==> Outcome(oracle, j) == Success)
    && (status == Success ==> |after| == |before| + |plan| && (|after| > |before| ==> Outcome(oracle, |after| - 1) == Success))
    && (status != Success ==> |after| > |before| && Outcome(oracle, |after| - 1) == status)
  }

  /**
   * A method that meant to make the calls `plan` took the log from `before` to `after` and ended
   * with `status`: it made the plan's calls in order, every call but the last one it made succeeded,
   * it stopped at the first failure and reports it, and it reports `Success` only after the whole plan.
   */
  predicate Ran(oracle: map<nat, Status>, before: seq<Call>, after: seq<Call>, plan: seq<Call>, status: Status) {
    Made(before, after, plan) && Ended(oracle, before, after, plan, status)
  }

  /** Making no call at all runs the empty plan. */
  lemma RanNothing(oracle: map<nat, Status>, log: seq<Call>)
    ensures Ran(oracle, log, log, [], Success)
  {
    assert log + [][..0] == log;
  }

  /** One call, answered by the oracle, runs the plan made of that call. */
  lemma RanCall(oracle: map<nat, Status>, log: seq<Call>, call: Call)
    ensures Ran(oracle, log, log + [call], [call], Outcome(oracle, |log|))
  {
    assert [call][..1] == [call];
  }

  /** Running `first` to completion and then `second` runs `first + second`. */
  lemma RanThen(oracle: map<nat, Status>, log0: seq<Call>, log1: seq<Call>, log2: seq<Call>,
                first: seq<Call>, second: seq<Call>, status: Status)
    requires Ran(oracle, log0, log1, first, Success)
    requires Ran(oracle, log1, log2, second, status)
    ensures Ran(oracle, log0, log2, first + second, status)
  {
    var plan := first + second;
    var m := |log2| - |log1|;
    assert log1 == log0 + first;
    assert plan[..|log2| - |log0|] == first + second[..m];
    forall j | |log0| <= j < |log2| - 1
      ensures Outcome(oracle, j) == Success
    {
      if j >= |log1| {
      } else if j == |log1| - 1 {
      }
    }
  }

  /** A run that failed within `first` also ran `first + second`: nothing after the failure happened. */
  lemma RanStopped(oracle: map<nat, Status>, log0: seq<Call>, log1: seq<Call>,
                   first: seq<Call>, second: seq<Call>, status: Status)
    requires Ran(oracle, log0, log1, first, status)
    requires status != Success
    ensures Ran(oracle, log0, log1, first + second, status)
  {
    assert (first + second)[..|log1| - |log0|] == first[..|log1| - |log0|];
  }

  /** One more call after a successful run extends the run by that call. */
  lemma RanStep(oracle: map<nat, Status>, log0: seq<Call>, log1: seq<Call>, done: seq<Call>, call: Call)
    requires Ran(oracle, log0, log1, done, Success)
    ensures Ran(oracle, log0, log1 + [call], done + [call], Outcome(oracle, |log1|))
  {
    RanCall(oracle, log1, call);
    RanThen(oracle, log0, log1, log1 + [call], done, [call], Outcome(oracle, |log1|));
  }

  /** A run that failed within a prefix of `plan` also ran `plan`. */
  lemma RanPrefix(oracle: map<nat, Status>, log0: seq<Call>, log1: seq<Call>, done: seq<Call>,
                  plan: seq<Call>, status: Status)
    requires Ran(oracle, log0, log1, done, status)
    requires status != Success
    requires done <= plan
    ensures Ran(oracle, log0, log1, plan, status)
  {
    assert plan == done + plan[|done|..];
    RanStopped(oracle, log0, log1, done, plan[|done|..], status);
  }

  /** Before the first call, nothing of `plan` has run. */
  lemma RanStart(oracle: map<nat, Status>, log: seq<Call>, plan: seq<Call>)
    ensures Ran(oracle, log, log, plan[..0], Success)
  {
    assert plan[..0] == [];
  }

  /**
   * Making call `k` of `plan` after the calls before it extends the run by one call; if that call
   * failed, the run of the whole plan ended there, and if it was the last one, the whole plan ran.
   */
  lemma RanNext(oracle: map<nat, Status>, log0: seq<Call>, log1: seq<Call>, plan: seq<Call>, k: nat)
    requires k < |plan|
    requires Ran(oracle, log0, log1, plan[..k], Success)
    ensures Ran(oracle, log0, log1 + [plan[k]], plan[..k + 1], Outcome(oracle, |log1|))
    ensures Outcome(oracle, |log1|) != Success ==> Ran(oracle, log0, log1 + [plan[k]], plan, Outcome(oracle, |log1|))
    ensures k + 1 == |plan| ==> Ran(oracle, log0, log1 + [plan[k]], plan, Outcome(oracle, |log1|))
  {
    assert plan[..k] + [plan[k]] == plan[..k + 1];
    RanStep(oracle, log0, log1, plan[..k], plan[k]);
    if Outcome(oracle, |log1|) != Success {
      RanPrefix(oracle, log0, log1 + [plan[k]], plan[..k + 1], plan, Outcome(oracle, |log1|));
    }
    if k + 1 == |plan| {
      assert plan[..k + 1] == plan;
    }
  }
}
