/** The bound on the provider calls of a run is exact: some provider makes a run reach it. */
module RouterWorstCase {
  import opened Options
  import opened ModelStream
  import opened RouterExecute
  import opened RouterRuns

  const OVERLOADED := ModelError("overloaded", true, false, false)
  const EMPTY_ANSWER := Reply([MessageEnd], Finished)
  const OVERLOAD := Reply([], Threw(OVERLOADED))

  /** The place of call number `k` among the calls of its attempt, when every attempt makes `z` calls. */
  function Place(k: nat, z: nat): nat
    requires z > 0
  {
    if k < z then k else Place(k - z, z)
  }

  /** Empty answers as long as they are retried; overload at the last one, and from then on in the last attempt. */
  predicate Overloads(s: Setup, k: nat) {
    var z, last := Z(s.config), (|Attempts(s)| - 1) * Z(s.config);
    if k < last then Place(k, z) == z - 1 else k - last >= z - 1
  }

  function WorstProvider(s: Setup): Env {
    Env((k: nat) => if Overloads(s, k) then OVERLOAD else EMPTY_ANSWER,
        (k: nat) => false, (k: nat) => false, (k: nat) => 0)
  }

  lemma AnswerFacts()
    ensures !HasContent(EMPTY_ANSWER.events) && ErrorOf(EMPTY_ANSWER) == None
    ensures ShouldRetryZeroUsage(ObserveAll(EMPTY_ANSWER.events))
    ensures !HasContent(OVERLOAD.events) && ErrorOf(OVERLOAD) == Some(OVERLOADED) && IsFallbackEligible(OVERLOADED)
  {
    assert EMPTY_ANSWER.events[..0] == [];
  }

  lemma {:induction false} PlaceInAttempt(z: nat, i: nat, tries: nat)
    requires tries < z
    ensures Place(i * z + tries, z) == tries
  {
    if i > 0 {
      PlaceInAttempt(z, i - 1, tries);
      assert i * z == (i - 1) * z + z;
      Product(i - 1, z);
    }
  }

  /** Call number `k` is the one after `tries` calls of attempt `i`. */
  ghost predicate At(s: Setup, i: nat, tries: nat, transients: nat, k: nat) {
    var n, z := |Attempts(s)|, Z(s.config);
    && i < n && k == i * z + tries
    && if i < n - 1 then tries < z && transients == 0
       else transients == Max(0, tries - (z - 1)) && transients <= T(s.config)
  }

  lemma OverloadsAt(s: Setup, i: nat, tries: nat, transients: nat, k: nat)
    requires At(s, i, tries, transients, k)
    ensures Overloads(s, k) <==> tries >= Z(s.config) - 1
  {
    hide Attempts, Z, T;
    var n, z := |Attempts(s)|, Z(s.config);
    if i < n - 1 {
      PlaceInAttempt(z, i, tries);
      Product(n - 2 - i, z);
      assert (n - 1) * z == i * z + z + (n - 2 - i) * z;
    }
  }

  lemma WorstStep(s: Setup, i: nat, tries: nat, transients: nat, k: nat) returns (step: Step)
    requires At(s, i, tries, transients, k)
    ensures step == OneTry(s, WorstProvider(s), i, tries, transients, k)
    ensures step.Again? ==> At(s, step.i, step.tries, step.transients, k + 1)
    ensures step.Again? ==> CallsLeft(s, i, tries, transients) == 1 + CallsLeft(s, step.i, step.tries, step.transients)
    ensures step.Halt? ==> CallsLeft(s, i, tries, transients) == 1 && step.result == Failed
  {
    var env := WorstProvider(s);
    step := OneTry(s, env, i, tries, transients, k);
    AnswerFacts();
    OverloadsAt(s, i, tries, transients, k);
    assert env.reply(k) == if Overloads(s, k) then OVERLOAD else EMPTY_ANSWER;
    hide Overloads, Attempts, Head, ReportFailure, ReportSuccess, HasContent, ErrorOf, ObserveAll, IsFallbackEligible,
         ShouldRetryZeroUsage, Emits;
    var m, z := |Attempts(s)| - 1 - i, Z(s.config);
    assert m * z == (m - 1) * z + z;
    assert (i + 1) * z == i * z + z;
  }

  lemma {:induction false} WorstFrom(s: Setup, i: nat, tries: nat, transients: nat, k: nat)
    requires !OverBudget(s, 0) && At(s, i, tries, transients, k)
    ensures Count(RunFrom(s, WorstProvider(s), i, tries, transients, k).trace, KCall)
         == CallsLeft(s, i, tries, transients)
    decreases |Attempts(s)| - i, RetriesLeft(s, tries, transients)
  {
    var env := WorstProvider(s);
    var step := WorstStep(s, i, tries, transients, k);
    assert !StopsBeforeCall(s, env, i, tries, k);
    hide OneTry, GoesOn, CallsLeft, At, OverBudget, WorstProvider, Attempts;
    var same := Unroll(s, env, i, tries, transients, k, KCall);
    hide RunFrom, Count;
    if step.Again? {
      OfAgain(s, i, tries, transients, step, KCall);
      WorstFrom(s, step.i, step.tries, step.transients, k + 1);
    }
  }

  /** The bound n * Z + T on the calls of a run is reached, for every configuration, by some provider. */
  lemma CallBoundIsReached(s: Setup)
    requires !OverBudget(s, 0)
    ensures exists env :: Count(Buffered(s, env).trace, KCall) == |Attempts(s)| * Z(s.config) + T(s.config)
  {
    var n, z := |Attempts(s)|, Z(s.config);
    assert n * z == (n - 1) * z + z;
    assert At(s, 0, 0, 0, 0);
    WorstFrom(s, 0, 0, 0, 0);
    assert Count(Buffered(s, WorstProvider(s)).trace, KCall) == n * z + T(s.config);
  }
}
