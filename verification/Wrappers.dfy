/** The optional value used for Python's `None`-or-value results. It works with `:-`. */
module Wrappers {
  datatype Option<+T> = None | Some(value: T) {
    predicate IsFailure() {
      None?
    }

    function PropagateFailure<U>(): Option<U>
      requires None?
    {
      None
    }

    function GetOr(other: T): T {
      if Some? then value else other
    }

    function Extract(): T
      requires Some?
    {
      value
    }
  }

  /** `after` holds the elements of `before` at the increasing positions `at`, in order. */
  ghost predicate Picks<T(!new)>(at: seq<nat>, before: seq<T>, after: seq<T>) {
    && |at| == |after|
    && (forall j :: 0 <= j < |at| ==> at[j] < |before| && after[j] == before[at[j]])
    && (forall i, j :: 0 <= i < j < |at| ==> at[i] < at[j])
  }

  /** Every position moved by `n`. */
  function Moved(at: seq<nat>, n: nat): (r: seq<nat>)
    ensures |r| == |at| && forall j :: 0 <= j < |at| ==> r[j] == at[j] + n
  {
    seq(|at|, j requires 0 <= j < |at| => at[j] + n)
  }

  lemma MovedMembers(at: seq<nat>, n: nat, k: nat)
    ensures k in Moved(at, n) <==> k >= n && (k - n) in at
  {
    var r := Moved(at, n);
    if k in r {
      var j :| 0 <= j < |r| && r[j] == k;
      assert at[j] == k - n;
    }
    if k >= n && (k - n) in at {
      var j :| 0 <= j < |at| && at[j] == k - n;
      assert r[j] == k;
    }
  }

  lemma PicksLater<T(!new)>(at: seq<nat>, before: seq<T>, after: seq<T>, n: nat)
    requires n <= |before| && Picks(at, before[n..], after)
    ensures Picks(Moved(at, n), before, after)
  {
  }

  lemma PicksFirst<T(!new)>(at: seq<nat>, before: seq<T>, after: seq<T>)
    requires before != [] && Picks(at, before[1..], after)
    ensures Picks([0] + Moved(at, 1), before, [before[0]] + after)
  {
    var all := [0] + Moved(at, 1);
    assert forall j :: 1 <= j < |all| ==> all[j] == at[j - 1] + 1;
  }

  lemma CutBehind<T>(a: seq<T>, b: seq<T>)
    ensures (a + b)[..|a|] == a && (a + b)[|a|..] == b
  {
  }

  lemma ConcatAssociates<T>(a: seq<T>, b: seq<T>, c: seq<T>)
    ensures (a + b) + c == a + (b + c)
  {
  }
}
