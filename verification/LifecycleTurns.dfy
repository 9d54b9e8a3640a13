/** Successive turns of one task. */
module LifecycleTurns {
  import opened Lifecycle

  /** Task `t` takes a turn for each answer. */
  ghost function Turns(q: State, t: TaskId, answers: seq<Choice>): State
    decreases |answers|
  {
    if answers == [] then q else Turns(Apply(q, Turn(t, answers[0])), t, answers[1..])
  }

  lemma FirstTurn(q: State, t: TaskId, c: Choice, rest: seq<Choice>)
    ensures Turns(q, t, [c] + rest) == Turns(Apply(q, Turn(t, c)), t, rest)
  {
    hide Apply;
    assert ([c] + rest)[1..] == rest;
  }

  lemma NoMoreTurns(q: State, t: TaskId)
    ensures Turns(q, t, []) == q
  {
  }

  lemma SixAnswers(c: seq<Choice>, more: seq<Choice>)
    requires |c| == 6
    ensures c + more == [c[0]] + ([c[1]] + ([c[2]] + ([c[3]] + ([c[4]] + ([c[5]] + more)))))
  {
  }

  lemma ThreeAnswers(c: seq<Choice>)
    requires |c| == 3
    ensures c == [c[0]] + ([c[1]] + ([c[2]] + []))
  {
  }

  /** None of the answers is a cancellation. */
  ghost predicate Calm(answers: seq<Choice>) {
    forall i :: 0 <= i < |answers| ==> !answers[i].cancelled
  }

  ghost predicate Works(q: State, t: TaskId, task: Task) {
    t in q.tasks && q.tasks[t] == task
  }
}
