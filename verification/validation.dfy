/**
 * Both submit handlers open with a chain of guards: each guard tests one
 * condition and, if it fails, shows its message and returns. The chain is an
 * ordered list of checks, and the first failing check decides the outcome.
 */
module Validation {
  /** One guard: whether its condition holds, and the message shown when it does not. */
  datatype Check = Check(passes: bool, message: string)

  /** The outcome of a guard chain: go on to the request, or stop with a message. */
  datatype Verdict = Proceed | Reject(message: string)

  /** Check `i` fails and every check before it passes. */
  predicate FirstFailingAt(checks: seq<Check>, i: int) {
    0 <= i < |checks| && !checks[i].passes && forall j :: 0 <= j < i ==> checks[j].passes
  }

  /** The verdict of running the guards in order. */
  function FirstFailure(checks: seq<Check>): (v: Verdict)
    ensures v == Proceed <==> forall i :: 0 <= i < |checks| ==> checks[i].passes
    ensures v.Reject? ==> exists i :: FirstFailingAt(checks, i) && v.message == checks[i].message
  {
    if checks == [] then Proceed
    else if !checks[0].passes then (assert FirstFailingAt(checks, 0); Reject(checks[0].message))
    else
      var v := FirstFailure(checks[1..]);
      if v.Reject? then
        var i :| FirstFailingAt(checks[1..], i) && v.message == checks[1..][i].message;
        assert FirstFailingAt(checks, i + 1) by {
          forall j | 0 <= j < i + 1 ensures checks[j].passes {
            if j > 0 { assert checks[j] == checks[1..][j - 1]; }
          }
        }
        v
      else v
  }

  /** The earliest failing check is the one whose message is shown; later checks do not matter. */
  lemma {:induction false} EarliestFailureDecides(checks: seq<Check>, i: nat)
    requires FirstFailingAt(checks, i)
    ensures FirstFailure(checks) == Reject(checks[i].message)
  {
    if i > 0 {
      assert checks[0].passes;
      assert FirstFailingAt(checks[1..], i - 1) by {
        forall j | 0 <= j < i - 1 ensures checks[1..][j].passes { assert checks[1..][j] == checks[j + 1]; }
      }
      EarliestFailureDecides(checks[1..], i - 1);
    }
  }
}
