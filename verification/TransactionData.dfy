/** Thinning out a StopTransaction.req that is too long to send. */
module TransactionData {

  // The length of the serialised request is a parameter: any function of the meter values that are left.

  function Erase<T>(t: seq<T>, i: nat): (r: seq<T>)
    requires i < |t|
    ensures |r| == |t| - 1
  {
    t[..i] + t[i + 1..]
  }

  /** The inner loop from index i on: erasing shifts the later entries under the index, which still moves on by two. */
  function Pass<T>(t: seq<T>, i: nat): seq<T>
    requires t != []
    decreases |t| - i
  {
    if i < |t| - 1 then Pass(Erase(t, i), i + 2) else t
  }

  /** The outer loop. */
  function Thinned<T>(t: seq<T>, size: seq<T> -> nat, limit: nat): seq<T>
    decreases |t|
  {
    if size(t) > limit && |t| > 2 then
      PassShrinks(t, 1);
      Thinned(Pass(t, 1), size, limit)
    else t
  }

  lemma {:induction false} PassShrinks<T>(t: seq<T>, i: nat)
    requires t != []
    ensures Pass(t, i) != [] && |Pass(t, i)| <= |t| && (i < |t| - 1 ==> |Pass(t, i)| < |t|)
    decreases |t| - i
  {
    if i < |t| - 1 {
      PassShrinks(Erase(t, i), i + 2);
    }
  }

  // ---------------------------------------------------------------- what one pass keeps

  /** Where entry k of the result of a pass over n entries comes from. */
  function Origin(k: nat, n: nat): nat
    requires n > 0
  {
    var o := if k % 2 == 0 then k / 2 * 3 else k / 2 * 3 + 2;
    if o < n then o else n - 1
  }

  /** The entries that a pass takes out: every third one, and never the last one. */
  predicate Dropped(j: nat, n: nat) {
    j % 3 == 1 && j < n - 1
  }

  /** The origins are, in order, all indices that are not dropped. */
  lemma OriginsAreKept(n: nat)
    requires n >= 2
    ensures forall k :: 0 <= k < n - n / 3 ==> Origin(k, n) < n && !Dropped(Origin(k, n), n)
    ensures forall k :: 0 < k < n - n / 3 ==> Origin(k - 1, n) < Origin(k, n)
    ensures Origin(0, n) == 0 && Origin(n - n / 3 - 1, n) == n - 1
  {
  }

  lemma KeptHasPlace(j: nat, n: nat) returns (k: nat)
    requires n >= 2 && j < n && !Dropped(j, n)
    ensures k < n - n / 3 && Origin(k, n) == j
  {
    k := if j % 3 == 1 then n - n / 3 - 1 else if j % 3 == 0 then j / 3 * 2 else j / 3 * 2 + 1;
  }

  /** When the index is 2m + 1, m entries are gone and the rest of the list is the rest of the original one. */
  ghost predicate Halfway<T>(t: seq<T>, m: nat, s: seq<T>) {
    && 3 * m <= |t| && |s| == |t| - m && 2 * m <= |s| && |t| >= 2
    && (forall k :: 0 <= k < 2 * m ==> Origin(k, |t|) < |t| && s[k] == t[Origin(k, |t|)])
    && (forall k :: 2 * m <= k < |s| ==> s[k] == t[k + m])
  }

  lemma HalfwayStep<T>(t: seq<T>, m: nat, s: seq<T>)
    requires Halfway(t, m, s) && 2 * m + 1 < |s| - 1
    ensures Halfway(t, m + 1, Erase(s, 2 * m + 1))
  {
    var r := Erase(s, 2 * m + 1);
    forall k | 0 <= k < 2 * m + 2 ensures Origin(k, |t|) < |t| && r[k] == t[Origin(k, |t|)] {
      if k >= 2 * m {
        assert Origin(2 * m, |t|) == 3 * m && Origin(2 * m + 1, |t|) == 3 * m + 2;
      }
    }
  }

  lemma HalfwayEnd<T>(t: seq<T>, m: nat, s: seq<T>)
    requires Halfway(t, m, s) && 2 * m + 1 >= |s| - 1
    ensures |s| == |t| - |t| / 3 && forall k :: 0 <= k < |s| ==> Origin(k, |t|) < |t| && s[k] == t[Origin(k, |t|)]
  {
    forall k | 2 * m <= k < |s| ensures Origin(k, |t|) == k + m {
    }
  }

  lemma {:induction false} PassFrom<T>(t: seq<T>, m: nat, s: seq<T>)
    requires Halfway(t, m, s)
    ensures var r := Pass(s, 2 * m + 1);
      |r| == |t| - |t| / 3 && forall k :: 0 <= k < |r| ==> Origin(k, |t|) < |t| && r[k] == t[Origin(k, |t|)]
    decreases |s| - 2 * m
  {
    if 2 * m + 1 < |s| - 1 {
      HalfwayStep(t, m, s);
      PassFrom(t, m + 1, Erase(s, 2 * m + 1));
    } else {
      HalfwayEnd(t, m, s);
    }
  }

  /** A pass over n entries leaves n - n / 3 of them: exactly those that are not dropped, in their order. */
  lemma PassExact<T>(t: seq<T>)
    requires |t| >= 2
    ensures |Pass(t, 1)| == |t| - |t| / 3
    ensures forall k :: 0 <= k < |Pass(t, 1)| ==> Origin(k, |t|) < |t| && Pass(t, 1)[k] == t[Origin(k, |t|)]
  {
    PassFrom(t, 0, t);
  }

  // ---------------------------------------------------------------- the whole loop

  /** s is t without the entries at other positions than those in `at`. */
  ghost predicate Picks<T>(t: seq<T>, s: seq<T>, at: seq<nat>) {
    && |at| == |s| && (forall k :: 0 <= k < |at| ==> at[k] < |t| && s[k] == t[at[k]])
    && (forall k :: 0 < k < |at| ==> at[k - 1] < at[k])
  }

  function Iterate<T>(t: seq<T>, passes: nat): seq<T>
    requires t != []
    ensures Iterate(t, passes) != []
    decreases passes
  {
    if passes == 0 then t else
      PassShrinks(t, 1);
      Iterate(Pass(t, 1), passes - 1)
  }

  /** The list shrinks only while it is too long, and stops when the message fits or two entries are left. */
  lemma {:induction false} ThinnedWhileTooLong<T>(t: seq<T>, size: seq<T> -> nat, limit: nat) returns (passes: nat)
    requires t != []
    ensures Thinned(t, size, limit) == Iterate(t, passes)
    ensures size(Thinned(t, size, limit)) <= limit || |Thinned(t, size, limit)| <= 2
    ensures forall p :: 0 <= p < passes ==> size(Iterate(t, p)) > limit && |Iterate(t, p)| > 2
    decreases |t|
  {
    if size(t) > limit && |t| > 2 {
      PassShrinks(t, 1);
      var later := ThinnedWhileTooLong(Pass(t, 1), size, limit);
      passes := later + 1;
      forall p | 0 <= p < passes ensures size(Iterate(t, p)) > limit && |Iterate(t, p)| > 2 {
        assert p > 0 ==> Iterate(t, p) == Iterate(Pass(t, 1), p - 1);
      }
    } else {
      passes := 0;
    }
  }

  /** The result is a subsequence with the same first and last entry, and at least two entries stay of two or more. */
  lemma {:induction false} ThinnedKeepsEnds<T>(t: seq<T>, size: seq<T> -> nat, limit: nat) returns (at: seq<nat>)
    requires t != []
    ensures Picks(t, Thinned(t, size, limit), at)
    ensures at != [] && at[0] == 0 && at[|at| - 1] == |t| - 1
    ensures |at| >= if |t| < 2 then |t| else 2
    decreases |t|
  {
    if size(t) > limit && |t| > 2 {
      PassShrinks(t, 1);
      PassExact(t);
      var later := ThinnedKeepsEnds(Pass(t, 1), size, limit);
      at := ThroughPass(t, Pass(t, 1), Thinned(t, size, limit), later);
    } else {
      at := seq(|t|, k => k);
    }
  }

  lemma ThroughPass<T>(t: seq<T>, p: seq<T>, s: seq<T>, later: seq<nat>) returns (at: seq<nat>)
    requires |t| >= 2 && |p| == |t| - |t| / 3 && Picks(p, s, later)
    requires forall k :: 0 <= k < |p| ==> Origin(k, |t|) < |t| && p[k] == t[Origin(k, |t|)]
    requires later != [] && later[0] == 0 && later[|later| - 1] == |p| - 1
    ensures Picks(t, s, at) && |at| == |later| && at[0] == 0 && at[|at| - 1] == |t| - 1
  {
    var n := |t|;
    OriginsAreKept(n);
    Increasing(n, later);
    hide Origin;
    at := seq(|later|, k requires 0 <= k < |later| => Origin(later[k], n));
  }

  lemma Increasing(n: nat, later: seq<nat>)
    requires n >= 2 && forall k :: 0 <= k < |later| ==> later[k] < n - n / 3
    requires forall k :: 0 < k < |later| ==> later[k - 1] < later[k]
    ensures forall k :: 0 < k < |later| ==> Origin(later[k - 1], n) < Origin(later[k], n)
  {
    forall k | 0 < k < |later| ensures Origin(later[k - 1], n) < Origin(later[k], n) {
      OriginsIncrease(later[k - 1], later[k], n);
    }
  }

  lemma {:induction false} OriginsIncrease(j: nat, k: nat, n: nat)
    requires n >= 2 && j < k < n - n / 3
    ensures Origin(j, n) < Origin(k, n)
  {
    OriginsAreKept(n);
    if j < k - 1 {
      OriginsIncrease(j, k - 1, n);
    }
  }

  // ---------------------------------------------------------------- the code

  /** A StopTransaction.req whose meter values are erased in place. */
  class StopTransactionCall<T> {
    var transactionData: seq<T>

    constructor (entries: seq<T>)
      ensures transactionData == entries
    {
      transactionData := entries;
    }

    method DropTransactionData(maxMessageSize: nat, size: seq<T> -> nat)
      modifies this
      ensures transactionData == Thinned(old(transactionData), size, maxMessageSize)
    {
      while size(transactionData) > maxMessageSize && |transactionData| > 2
        invariant Thinned(transactionData, size, maxMessageSize) == Thinned(old(transactionData), size, maxMessageSize)
        decreases |transactionData|
      {
        ghost var before := transactionData;
        PassShrinks(before, 1);
        var i := 1;
        while i < |transactionData| - 1
          invariant transactionData != [] && Pass(transactionData, i) == Pass(before, 1)
          decreases |transactionData| - i
        {
          transactionData := transactionData[..i] + transactionData[i + 1..];
          i := i + 2;
        }
      }
    }
  }
}
