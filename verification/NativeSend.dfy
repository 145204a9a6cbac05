/** The loop at the head of every send task: call the native send until it does something other
    than WOULD_BLOCK, or until the wait for a writable transport is interrupted. The native layer
    is a script of answers, one for each attempt. */
module NativeSend {

  // Blocked: WOULD_BLOCK, after which AwaitWritable returned nil (writable) or an error
  datatype Answer = Sent | Failed(code: int) | Blocked(writable: bool)

  datatype Outcome = Delivered | Rejected(code: int) | Interrupted

  predicate Decides(a: Answer) {
    a != Blocked(true)
  }

  function OutcomeOf(a: Answer): Outcome {
    match a
    case Sent => Delivered
    case Failed(code) => Rejected(code)
    case Blocked(_) => Interrupted
  }

  // how many attempts the loop makes
  function Attempts(answers: seq<Answer>): (n: nat)
    requires exists i :: 0 <= i < |answers| && Decides(answers[i])
    ensures 0 < n <= |answers| && Decides(answers[n - 1])
    ensures forall i :: 0 <= i < n - 1 ==> answers[i] == Blocked(true)
  {
    if Decides(answers[0]) then 1 else 1 + Attempts(answers[1..])
  }

  function Result(answers: seq<Answer>): Outcome
    requires exists i :: 0 <= i < |answers| && Decides(answers[i])
  {
    OutcomeOf(answers[Attempts(answers) - 1])
  }

  method Send(answers: seq<Answer>) returns (outcome: Outcome, sends: nat)
    requires exists i :: 0 <= i < |answers| && Decides(answers[i])
    ensures sends == Attempts(answers) && outcome == Result(answers)
  {
    sends := 1;
    while answers[sends - 1] == Blocked(true)
      invariant 1 <= sends <= |answers|
      invariant forall i :: 0 <= i < sends - 1 ==> answers[i] == Blocked(true)
      decreases |answers| - sends
    {
      sends := sends + 1;
    }
    outcome := OutcomeOf(answers[sends - 1]);
    FirstDecisionIsUnique(answers, sends);
  }

  lemma FirstDecisionIsUnique(answers: seq<Answer>, n: nat)
    requires 0 < n <= |answers| && Decides(answers[n - 1])
    requires forall i :: 0 <= i < n - 1 ==> answers[i] == Blocked(true)
    ensures n == Attempts(answers)
  {
    assert forall i :: 0 <= i < n - 1 ==> !Decides(answers[i]);
    assert forall i :: 0 <= i < Attempts(answers) - 1 ==> !Decides(answers[i]);
  }

  function Successes(answers: seq<Answer>): nat {
    if answers == [] then 0 else Successes(answers[..|answers| - 1]) + (if answers[|answers| - 1].Sent? then 1 else 0)
  }

  // However often the loop retries, the message goes out at most once, and exactly once if the
  // loop ends as delivered.
  lemma SentAtMostOnce(answers: seq<Answer>)
    requires exists i :: 0 <= i < |answers| && Decides(answers[i])
    ensures Successes(answers[..Attempts(answers)]) == if Result(answers) == Delivered then 1 else 0
  {
    var n := Attempts(answers);
    NoSuccessWhileBlocked(answers[..n - 1]);
    assert answers[..n][..n - 1] == answers[..n - 1];
  }

  lemma {:induction false} NoSuccessWhileBlocked(answers: seq<Answer>)
    requires forall i :: 0 <= i < |answers| ==> answers[i] == Blocked(true)
    ensures Successes(answers) == 0
  {
    if answers != [] {
      NoSuccessWhileBlocked(answers[..|answers| - 1]);
    }
  }
}
