/**
 * How a sequence of collaborator calls plays out. The runner rescues
 * nothing but the Precheck audit, so a run stops at the first call that
 * raises, or at a binary upload that reports failure.
 */
module Execution {
  import opened Collaborators

  /** How a run ends: normally, with the upload user error, or with a collaborator's exception. */
  datatype RunOutcome = Completed | UploadFailed | Aborted(call: Event)

  /** The calls that were made and how the run ended. */
  datatype Execution = Execution(events: seq<Event>, outcome: RunOutcome)

  /**
   * Does call `e` end the run? The audit never does: `precheck_app` rescues
   * its `StandardError` raises, the only ones modelled, and such a raise is
   * recorded as `env.audit == Raised`.
   */
  predicate Fatal(e: Event, env: Env) {
    if e.RunPrecheck? then false
    else e in env.raising || (e.UploadPackage? && !env.uploadAccepted)
  }

  /** How the run ends when call `e` is fatal: its exception, or the upload user error. */
  function FatalOutcome(e: Event, env: Env): (r: RunOutcome)
    ensures !r.Completed?
    ensures r.Aborted? <==> e in env.raising
    ensures r.Aborted? ==> r.call == e
    ensures !r.Aborted? ==> r == UploadFailed
  {
    if e in env.raising then Aborted(e) else UploadFailed
  }

  /** The position of the first fatal call of `plan`, or `|plan|` when there is none. */
  function FirstFatal(plan: seq<Event>, env: Env): (k: nat)
    ensures k <= |plan|
    ensures forall j :: 0 <= j < k ==> !Fatal(plan[j], env)
    ensures k < |plan| ==> Fatal(plan[k], env)
    decreases |plan|
  {
    if plan == [] then 0
    else if Fatal(plan[0], env) then 0
    else 1 + FirstFatal(plan[1..], env)
  }

  /** The first-fatal position is the only one with those two properties. */
  lemma FirstFatalUnique(plan: seq<Event>, env: Env, k: nat)
    requires k <= |plan|
    requires forall j :: 0 <= j < k ==> !Fatal(plan[j], env)
    requires k < |plan| ==> Fatal(plan[k], env)
    ensures FirstFatal(plan, env) == k
  {
  }

  /** Runs `plan` call by call until a call is fatal. */
  function Execute(plan: seq<Event>, env: Env): Execution {
    var k := FirstFatal(plan, env);
    if k == |plan| then Execution(plan, Completed)
    else Execution(plan[..k + 1], FatalOutcome(plan[k], env))
  }

  /**
   * An execution makes a prefix of the planned calls; it completes exactly
   * when no planned call is fatal, and otherwise ends with the first fatal
   * call and that call's outcome.
   */
  lemma ExecuteStopsAtFirstFatal(plan: seq<Event>, env: Env)
    ensures Execute(plan, env).events <= plan
    ensures Execute(plan, env).outcome.Completed? <==> forall i :: 0 <= i < |plan| ==> !Fatal(plan[i], env)
    ensures Execute(plan, env).outcome.Completed? ==> Execute(plan, env).events == plan
    ensures !Execute(plan, env).outcome.Completed? ==>
      var x := Execute(plan, env);
      var n := |x.events|;
      && n > 0
      && Fatal(x.events[n - 1], env)
      && x.outcome == FatalOutcome(x.events[n - 1], env)
      && forall i :: 0 <= i < n - 1 ==> !Fatal(x.events[i], env)
  {
    var k := FirstFatal(plan, env);
    if k < |plan| {
      assert plan[..k + 1][k] == plan[k];
    }
  }

  /** A plan whose first part has no fatal call runs all of that part. */
  lemma ExecuteRunsNonFatalPrefix(a: seq<Event>, b: seq<Event>, env: Env)
    requires forall e :: e in a ==> !Fatal(e, env)
    ensures a <= Execute(a + b, env).events
  {
    ExecuteConcat(a, b, env);
    ExecuteStopsAtFirstFatal(a, env);
  }

  /** A fatal call that an execution made is its last call, and it decides the outcome. */
  lemma ExecuteEndsAtFatalCall(plan: seq<Event>, env: Env, e: Event)
    requires e in Execute(plan, env).events && Fatal(e, env)
    ensures !Execute(plan, env).outcome.Completed?
    ensures Execute(plan, env).events[|Execute(plan, env).events| - 1] == e
    ensures Execute(plan, env).outcome == FatalOutcome(e, env)
  {
    ExecuteStopsAtFirstFatal(plan, env);
    var x := Execute(plan, env);
    var i :| 0 <= i < |x.events| && x.events[i] == e;
    assert plan[i] == e;
  }

  /** Making the single call `e`. */
  function Step(e: Event, env: Env): Execution {
    Execution([e], if Fatal(e, env) then FatalOutcome(e, env) else Completed)
  }

  /** Running `x` and then, if it completed, `y`. */
  function Then(x: Execution, y: Execution): Execution {
    if x.outcome.Completed? then Execution(x.events + y.events, y.outcome) else x
  }

  /** Executing one call is `Step`. */
  lemma ExecuteSingle(e: Event, env: Env)
    ensures Execute([e], env) == Step(e, env)
  {
    if !Fatal(e, env) {
      assert forall i :: 0 <= i < 1 ==> !Fatal([e][i], env);
    }
  }

  /** Executing a concatenation runs the second part only if the first completed. */
  lemma ExecuteConcat(a: seq<Event>, b: seq<Event>, env: Env)
    ensures Execute(a + b, env) == Then(Execute(a, env), Execute(b, env))
  {
    var ab := a + b;
    var ka := FirstFatal(a, env);
    if ka < |a| {
      forall j | 0 <= j < ka ensures !Fatal(ab[j], env) {
        assert ab[j] == a[j];
      }
      assert ab[ka] == a[ka];
      FirstFatalUnique(ab, env, ka);
      assert ab[..ka + 1] == a[..ka + 1];
    } else {
      var kb := FirstFatal(b, env);
      forall j | 0 <= j < |a| + kb ensures !Fatal(ab[j], env) {
        if j < |a| {
          assert ab[j] == a[j];
        } else {
          assert ab[j] == b[j - |a|];
        }
      }
      if kb < |b| {
        assert ab[|a| + kb] == b[kb];
      }
      FirstFatalUnique(ab, env, |a| + kb);
      if kb < |b| {
        assert ab[..|a| + kb + 1] == a + b[..kb + 1];
      }
    }
  }

  /** Executing an empty plan does nothing and completes. */
  lemma ExecuteEmpty(env: Env)
    ensures Execute([], env) == Execution([], Completed)
  {
  }
}
