/** Strictly increasing sequences of numbers, as they move through a pipeline. */
module Ordered {

  ghost predicate Increasing(q: seq<nat>) {
    forall i, j :: 0 <= i < j < |q| ==> q[i] < q[j]
  }

  ghost predicate AtMost(q: seq<nat>, limit: nat) {
    forall i :: 0 <= i < |q| ==> q[i] <= limit
  }

  /** A new number, larger than all before it, joins at the end. */
  lemma Join(q: seq<nat>, limit: nat)
    requires Increasing(q) && AtMost(q, limit)
    ensures Increasing(q + [limit + 1]) && AtMost(q + [limit + 1], limit + 1)
  {
  }

  /** Taking out a stretch keeps the rest in order. */
  lemma TakeOut(front: seq<nat>, gone: seq<nat>, back: seq<nat>, limit: nat)
    requires Increasing(front + gone + back) && AtMost(front + gone + back, limit)
    ensures Increasing(front + back) && AtMost(front + back, limit)
  {
    var whole, rest := front + gone + back, front + back;
    forall i | 0 <= i < |rest|
      ensures rest[i] == whole[if i < |front| then i else i + |gone|]
    {
    }
  }

  /** Moving the boundary between what comes out of a queue and what is left. */
  lemma Shift<T>(out: seq<T>, x: T, rest: seq<T>, last: seq<T>)
    ensures out + [] + ([x] + rest + last) == out + [x] + (rest + last)
  {
  }

  lemma Regroup<T>(a: seq<T>, b: seq<T>, c: seq<T>, d: seq<T>, e: seq<T>)
    ensures (a + b + c) + d + e == a + (b + c + d + e)
    ensures (a + b + c) + d + e == (a + b) + c + (d + e)
  {
  }

  /** Moments of a run after event `a`, in order. */
  ghost predicate Moments(at: seq<nat>, a: nat, end: nat) {
    Increasing(at) && forall i :: 0 <= i < |at| ==> a < at[i] <= end
  }

  lemma MomentJoins(at: seq<nat>, a: nat, end: nat)
    requires Moments(at, a, end) && a <= end
    ensures Moments(at + [end + 1], a, end + 1)
  {
  }

  lemma Front(front: seq<nat>, back: seq<nat>, limit: nat)
    requires Increasing(front + back) && AtMost(front + back, limit)
    ensures Increasing(front) && AtMost(front, limit)
  {
    forall i | 0 <= i < |front|
      ensures front[i] == (front + back)[i]
    {
    }
  }
}

/** Subsequences, up to what becomes of their members: each item stems from a
    member of the original, made later than that of the item before. */
module Subsequences {
  import opened Ordered

  /** `at` says where the items stem from, counting from 1. */
  ghost predicate Places<S, T>(made: seq<S>, line: seq<T>, stems: (S, T) -> bool, at: seq<nat>) {
    && |at| == |line|
    && Increasing(at) && AtMost(at, |made|)
    && forall i :: 0 <= i < |line| ==> at[i] >= 1 && stems(made[at[i] - 1], line[i])
  }

  ghost predicate Subsequence<S, T>(made: seq<S>, line: seq<T>, stems: (S, T) -> bool) {
    exists at: seq<nat> :: Places(made, line, stems, at)
  }

  lemma NoItems<S, T>(made: seq<S>, stems: (S, T) -> bool)
    ensures Subsequence(made, [], stems)
  {
    var nowhere: seq<nat> := [];
    assert Places(made, [], stems, nowhere);
  }

  /** A new member, and the item that stems from it. */
  lemma Append<S, T>(made: seq<S>, line: seq<T>, stems: (S, T) -> bool, x: S, item: T)
    requires Subsequence(made, line, stems) && stems(x, item)
    ensures Subsequence(made + [x], line + [item], stems)
  {
    var at: seq<nat> :| Places(made, line, stems, at);
    Join(at, |made|);
    assert Places(made + [x], line + [item], stems, at + [|made| + 1]);
  }

  /** Losing a stretch leaves a subsequence. */
  lemma Lose<S, T>(made: seq<S>, front: seq<T>, gone: seq<T>, back: seq<T>, stems: (S, T) -> bool)
    requires Subsequence(made, front + gone + back, stems)
    ensures Subsequence(made, front + back, stems)
  {
    var whole, rest := front + gone + back, front + back;
    var at: seq<nat> :| Places(made, whole, stems, at);
    var i, j := |front|, |front| + |gone|;
    assert at == at[..i] + at[i..j] + at[j..];
    TakeOut(at[..i], at[i..j], at[j..], |made|);
    var left := at[..i] + at[j..];
    forall k | 0 <= k < |rest|
      ensures left[k] >= 1 && stems(made[left[k] - 1], rest[k])
    {
      var l := if k < i then k else k + |gone|;
      assert rest[k] == whole[l] && left[k] == at[l];
    }
    assert Places(made, rest, stems, left);
  }

  /** An item may become another that stems from the same member. */
  lemma Become<S(!new), T>(made: seq<S>, front: seq<T>, a: T, b: T, back: seq<T>, stems: (S, T) -> bool)
    requires Subsequence(made, front + [a] + back, stems)
    requires forall x :: stems(x, a) ==> stems(x, b)
    ensures Subsequence(made, front + [b] + back, stems)
  {
    var before, after := front + [a] + back, front + [b] + back;
    var at: seq<nat> :| Places(made, before, stems, at);
    forall k | 0 <= k < |after|
      ensures at[k] >= 1 && stems(made[at[k] - 1], after[k])
    {
      assert stems(made[at[k] - 1], before[k]);
      assert k != |front| ==> after[k] == before[k];
    }
    assert Places(made, after, stems, at);
  }

  /** The beginning of a subsequence is one. */
  lemma Start<S, T>(made: seq<S>, front: seq<T>, back: seq<T>, stems: (S, T) -> bool) returns (at: seq<nat>)
    requires Subsequence(made, front + back, stems)
    ensures Places(made, front, stems, at)
  {
    var whole := front + back;
    var all: seq<nat> :| Places(made, whole, stems, all);
    at := all[..|front|];
    assert all == at + all[|front|..];
    Front(at, all[|front|..], |made|);
    forall k | 0 <= k < |front|
      ensures at[k] >= 1 && stems(made[at[k] - 1], front[k])
    {
      assert whole[k] == front[k];
    }
  }
}
