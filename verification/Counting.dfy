/** Counters as sizes, lists as positions, and chains of checks as the first that holds. */
module Counting {
  import opened Wrappers

  // ---- How many ----

  /** Where in the sequence the condition holds. */
  ghost function Where<T(!new)>(s: seq<T>, p: T -> bool): set<nat> {
    set i: nat | i < |s| && p(s[i])
  }

  /** The last member adds itself or nothing. */
  lemma WhereLast<T(!new)>(s: seq<T>, p: T -> bool)
    requires s != []
    ensures |Where(s, p)| == |Where(s[..|s| - 1], p)| + (if p(s[|s| - 1]) then 1 else 0)
  {
    var n := |s| - 1;
    assert Where(s, p) == Where(s[..n], p) + (if p(s[n]) then {n} else {});
  }

  /** The sum of a quantity over a list. */
  ghost function Total<T>(s: seq<T>, f: T -> nat): nat {
    if s == [] then 0 else Total(s[..|s| - 1], f) + f(s[|s| - 1])
  }

  ghost predicate Distinct(keys: seq<int>) {
    forall i, j :: 0 <= i < j < |keys| ==> keys[i] != keys[j]
  }

  // ---- Which, and in what order ----

  ghost predicate Increasing(at: seq<nat>) {
    forall j, k :: 0 <= j < k < |at| ==> at[j] < at[k]
  }

  /** All the places where the condition holds, in order. */
  ghost predicate Picks<T(!new)>(s: seq<T>, p: T -> bool, at: seq<nat>) {
    Increasing(at) && forall i: nat :: i in at <==> i < |s| && p(s[i])
  }

  lemma PicksLast<T(!new)>(s: seq<T>, p: T -> bool, before: seq<nat>, at: seq<nat>)
    requires s != [] && Picks(s[..|s| - 1], p, before)
    requires at == if p(s[|s| - 1]) then before + [|s| - 1] else before
    ensures Picks(s, p, at)
  {
    var n := |s| - 1;
    forall j | 0 <= j < |before| ensures before[j] < n {
      assert before[j] in before;
    }
    forall i: nat ensures i in at <==> i < |s| && p(s[i]) {
      assert i in before <==> i < n && p(s[..n][i]);
    }
  }

  // ---- Which first ----

  /** The first of these, in this order, that holds; None if none does. */
  ghost predicate FirstOf<T(!new)>(order: seq<T>, holds: T -> bool, first: Option<T>) {
    match first
    case None => forall i :: 0 <= i < |order| ==> !holds(order[i])
    case Some(x) =>
      exists i :: 0 <= i < |order| && order[i] == x && holds(x) && forall j :: 0 <= j < i ==> !holds(order[j])
  }
}
