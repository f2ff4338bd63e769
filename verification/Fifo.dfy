/** A bounded first-in first-out queue of values: what the ring buffer of the
    host and the FreeRTOS queues are for. */
module Fifo {

  datatype Op<T> = Push(item: T) | Take | Clear | Count

  datatype Answer<T> = Pushed(ok: bool) | Taken(item: T) | Nothing | Cleared | Holds(n: nat)

  datatype Outcome<T> = Outcome(queue: seq<T>, answer: Answer<T>)

  function Apply<T>(capacity: nat, q: seq<T>, op: Op<T>): Outcome<T> {
    match op
    case Push(x) => if |q| < capacity then Outcome(q + [x], Pushed(true)) else Outcome(q, Pushed(false))
    case Take => if q == [] then Outcome(q, Nothing) else Outcome(q[1..], Taken(q[0]))
    case Clear => Outcome([], Cleared)
    case Count => Outcome(q, Holds(|q|))
  }

  /** The queue after a history of calls. */
  function After<T>(capacity: nat, q: seq<T>, ops: seq<Op<T>>): seq<T> {
    if ops == [] then q
    else Apply(capacity, After(capacity, q, ops[..|ops| - 1]), ops[|ops| - 1]).queue
  }

  /** The answers to a history of calls. */
  function Answers<T>(capacity: nat, q: seq<T>, ops: seq<Op<T>>): (answers: seq<Answer<T>>)
    ensures |answers| == |ops|
  {
    if ops == [] then []
    else
      var n := |ops| - 1;
      Answers(capacity, q, ops[..n]) + [Apply(capacity, After(capacity, q, ops[..n]), ops[n]).answer]
  }

  lemma {:induction false} AfterBoth<T>(capacity: nat, q: seq<T>, first: seq<Op<T>>, second: seq<Op<T>>)
    ensures After(capacity, q, first + second) == After(capacity, After(capacity, q, first), second)
    decreases |second|
  {
    if second == [] {
      assert first + second == first;
    } else {
      var n := |second| - 1;
      assert (first + second)[..|first + second| - 1] == first + second[..n];
      AfterBoth(capacity, q, first, second[..n]);
    }
  }

  function Got<T>(op: Op<T>, answer: Answer<T>): seq<T> {
    if op.Push? && answer == Pushed(true) then [op.item] else []
  }

  function Gave<T>(answer: Answer<T>): seq<T> {
    if answer.Taken? then [answer.item] else []
  }

  /** The items a history of calls got into the queue. */
  function Accepted<T>(ops: seq<Op<T>>, answers: seq<Answer<T>>): seq<T>
    requires |ops| == |answers|
  {
    if ops == [] then []
    else
      var n := |ops| - 1;
      Accepted(ops[..n], answers[..n]) + Got(ops[n], answers[n])
  }

  /** The items a history of calls took out again. */
  function Delivered<T>(answers: seq<Answer<T>>): seq<T> {
    if answers == [] then []
    else
      var n := |answers| - 1;
      Delivered(answers[..n]) + Gave(answers[n])
  }

  lemma {:induction false} NeverOverfull<T>(capacity: nat, q: seq<T>, ops: seq<Op<T>>)
    requires |q| <= capacity
    ensures |After(capacity, q, ops)| <= capacity
    decreases |ops|
  {
    if ops != [] {
      NeverOverfull(capacity, q, ops[..|ops| - 1]);
    }
  }

  /** First in, first out, nothing lost and nothing made up: as long as nothing
      clears the queue, what was there followed by what got in is what came out
      followed by what is there now. */
  lemma {:induction false} FirstInFirstOut<T>(capacity: nat, q: seq<T>, ops: seq<Op<T>>)
    requires Clear !in ops
    ensures var answers := Answers(capacity, q, ops);
      q + Accepted(ops, answers) == Delivered(answers) + After(capacity, q, ops)
    decreases |ops|
  {
    if ops == [] {
    } else {
      var n := |ops| - 1;
      FirstInFirstOut(capacity, q, ops[..n]);
      assert ops[n] in ops;
      AnswersGrow(capacity, q, ops);
      OneMoreCall(capacity, q, Accepted(ops[..n], Answers(capacity, q, ops[..n])),
                  Delivered(Answers(capacity, q, ops[..n])), After(capacity, q, ops[..n]), ops[n]);
    }
  }

  lemma AnswersGrow<T>(capacity: nat, q: seq<T>, ops: seq<Op<T>>)
    requires ops != []
    ensures var n, answers := |ops| - 1, Answers(capacity, q, ops);
      var last := Apply(capacity, After(capacity, q, ops[..n]), ops[n]).answer;
      && Accepted(ops, answers) == Accepted(ops[..n], Answers(capacity, q, ops[..n])) + Got(ops[n], last)
      && Delivered(answers) == Delivered(Answers(capacity, q, ops[..n])) + Gave(last)
  {
    var n, answers := |ops| - 1, Answers(capacity, q, ops);
    assert answers[..n] == Answers(capacity, q, ops[..n]);
  }

  lemma OneMoreCall<T>(capacity: nat, start: seq<T>, got: seq<T>, gave: seq<T>, q: seq<T>, op: Op<T>)
    requires start + got == gave + q && op != Clear
    ensures var r := Apply(capacity, q, op);
      start + (got + Got(op, r.answer)) == (gave + Gave(r.answer)) + r.queue
  {
    match op
    case Push(x) =>
      if |q| < capacity {
        assert start + (got + [x]) == (start + got) + [x];
        assert (gave + []) + (q + [x]) == (gave + q) + [x];
      } else {
        assert got + [] == got && gave + [] == gave;
      }
    case Take =>
      assert got + [] == got && gave + [] == gave;
      if q != [] {
        assert gave + q == (gave + [q[0]]) + q[1..];
      }
    case Count =>
      assert got + [] == got && gave + [] == gave;
  }
}
