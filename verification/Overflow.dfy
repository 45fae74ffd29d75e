/** Overflow handling. */
module Overflow {
  import opened Messages
  import opened QueueSpec

  // What overflow handling keeps, what it drops, and what it leaves behind.

  // ---------------------------------------------------------------- induction over overflow handling

  /** A property kept by dropping one normal message and by dropping one update survives overflow handling. */
  lemma {:induction false} OverflowKeeps(P: Store -> bool, c: Config, s: Store)
    requires P(s)
    requires forall t: Store :: P(t) && t.normal != [] ==> P(DropFront(c, t))
    requires forall t: Store, i: nat :: P(t) && i < |t.tx| && Droppable(c, t, i) ==> P(DropUpdate(t, i))
    ensures P(CheckQueueSizes(c, s))
  {
    DropNormalsKeeps(P, c, s);
    DropUpdatesKeeps(P, c, DropNormals(c, s));
  }

  lemma {:induction false} DropFrontsKeeps(P: Store -> bool, c: Config, s: Store, n: nat)
    requires P(s) && n <= |s.normal|
    requires forall t: Store :: P(t) && t.normal != [] ==> P(DropFront(c, t))
    ensures P(DropFronts(c, s, n))
    decreases n
  {
    if n > 0 {
      DropFrontsKeeps(P, c, DropFront(c, s), n - 1);
    }
  }

  lemma {:induction false} DropNormalsKeeps(P: Store -> bool, c: Config, s: Store)
    requires P(s)
    requires forall t: Store :: P(t) && t.normal != [] ==> P(DropFront(c, t))
    ensures P(DropNormals(c, s))
    decreases |s.normal|
  {
    if Exceeds(c, s) && s.normal != [] {
      DropFrontsKeeps(P, c, s, BatchSize(c, s));
      DropNormalsKeeps(P, c, DropFronts(c, s, BatchSize(c, s)));
    }
  }

  lemma {:induction false} DropPassKeeps(P: Store -> bool, c: Config, s: Store, i: nat, removeNext: bool)
    requires P(s) && i <= |s.tx|
    requires forall t: Store, i: nat :: P(t) && i < |t.tx| && Droppable(c, t, i) ==> P(DropUpdate(t, i))
    ensures P(DropPass(c, s, i, removeNext))
    decreases |s.tx| - i
  {
    if i == |s.tx| {
    } else if removeNext && Droppable(c, s, i) {
      DropPassKeeps(P, c, DropUpdate(s, i), i, false);
    } else {
      DropPassKeeps(P, c, s, i + 1, true);
    }
  }

  lemma {:induction false} DropUpdatesKeeps(P: Store -> bool, c: Config, s: Store)
    requires P(s)
    requires forall t: Store, i: nat :: P(t) && i < |t.tx| && Droppable(c, t, i) ==> P(DropUpdate(t, i))
    ensures P(DropUpdates(c, s))
    decreases |s.tx|
  {
    if Exceeds(c, s) {
      DropPassKeeps(P, c, s, 0, true);
      var t := DropPass(c, s, 0, true);
      if |t.tx| < |s.tx| {
        DropUpdatesKeeps(P, c, t);
      }
    }
  }

  // ---------------------------------------------------------------- normal messages

  lemma {:induction false} DropFrontsExact(c: Config, s: Store, n: nat)
    requires n <= |s.normal|
    ensures var t := DropFronts(c, s, n); t.normal == s.normal[n..] && t.tx == s.tx && t.inFlight == s.inFlight && t.txTable == s.txTable
    decreases n
  {
    if n > 0 {
      DropFrontsExact(c, DropFront(c, s), n - 1);
    }
  }

  /** Only the oldest normal messages go; if any survive, no more were dropped than one batch beyond need. */
  lemma {:induction false} DropNormalsExact(c: Config, s: Store)
    ensures var t := DropNormals(c, s);
      && t.tx == s.tx && t.inFlight == s.inFlight && t.txTable == s.txTable
      && |t.normal| <= |s.normal| && t.normal == s.normal[|s.normal| - |t.normal|..]
      && (!Exceeds(c, t) || t.normal == [])
      && (Exceeds(c, s) && t.normal != [] ==> |t.tx| + |t.normal| > c.threshold - Max(c.threshold / 10, 1))
    decreases |s.normal|
  {
    if Exceeds(c, s) && s.normal != [] {
      var u := DropFronts(c, s, BatchSize(c, s));
      DropFrontsExact(c, s, BatchSize(c, s));
      DropNormalsExact(c, u);
      var t := DropNormals(c, u);
      assert t.normal == s.normal[|s.normal| - |t.normal|..];
    }
  }

  // ---------------------------------------------------------------- transaction updates

  /** Which messages one pass drops. */
  function DropMask(p: Protocol, q: seq<Msg>, removeNext: bool): (mask: seq<bool>)
    ensures |mask| == |q|
  {
    if q == [] then []
    else
      var drop := removeNext && IsUpdate(p, q[0].call) && |q| > 2;
      [drop] + DropMask(p, q[1..], !drop)
  }

  /** The messages whose mask is false. */
  function Unmasked<T>(q: seq<T>, mask: seq<bool>): seq<T>
    requires |q| == |mask|
  {
    if q == [] then [] else if mask[0] then Unmasked(q[1..], mask[1..]) else [q[0]] + Unmasked(q[1..], mask[1..])
  }

  /** Every second update between other messages goes, never one of the last two messages. */
  lemma {:induction false} MaskRule(p: Protocol, q: seq<Msg>, removeNext: bool, j: nat)
    requires j < |q|
    ensures var mask := DropMask(p, q, removeNext);
      mask[j] <==> IsUpdate(p, q[j].call) && j + 2 < |q| && (if j == 0 then removeNext else !mask[j - 1])
  {
    if j > 0 {
      MaskRule(p, q[1..], !DropMask(p, q, removeNext)[0], j - 1);
    }
  }

  lemma {:induction false} DropPassExact(c: Config, s: Store, i: nat, removeNext: bool)
    requires i <= |s.tx|
    ensures var t := DropPass(c, s, i, removeNext);
      && t.tx == s.tx[..i] + Unmasked(s.tx[i..], DropMask(c.protocol, s.tx[i..], removeNext))
      && t.normal == s.normal && t.inFlight == s.inFlight
    decreases |s.tx| - i
  {
    if i < |s.tx| {
      var q := s.tx[i..];
      assert q[1..] == s.tx[i + 1..] && q[0] == s.tx[i];
      if removeNext && Droppable(c, s, i) {
        var u := DropUpdate(s, i);
        assert u.tx[..i] == s.tx[..i] && u.tx[i..] == q[1..];
        DropPassExact(c, u, i, false);
      } else {
        DropPassExact(c, s, i + 1, true);
        assert s.tx[..i + 1] == s.tx[..i] + [q[0]];
      }
    }
  }

  /** One pass keeps exactly the messages the mask spares. */
  lemma PassKeepsUnmasked(c: Config, s: Store)
    ensures DropPass(c, s, 0, true).tx == Unmasked(s.tx, DropMask(c.protocol, s.tx, true))
  {
    DropPassExact(c, s, 0, true);
    assert s.tx[0..] == s.tx;
  }

  lemma {:induction false} UnmaskedShorter<T>(q: seq<T>, mask: seq<bool>, j: nat)
    requires |q| == |mask| && j < |q| && mask[j]
    ensures |Unmasked(q, mask)| < |q|
  {
    UnmaskedLength(q[1..], mask[1..]);
    if j > 0 {
      UnmaskedShorter(q[1..], mask[1..], j - 1);
    }
  }

  lemma {:induction false} UnmaskedLength<T>(q: seq<T>, mask: seq<bool>)
    requires |q| == |mask|
    ensures |Unmasked(q, mask)| <= |q|
    ensures (forall j :: 0 <= j < |mask| ==> !mask[j]) ==> Unmasked(q, mask) == q
  {
    if q != [] {
      UnmaskedLength(q[1..], mask[1..]);
      if forall j :: 0 <= j < |mask| ==> !mask[j] {
        assert forall j :: 0 <= j < |mask[1..]| ==> !mask[1..][j];
      }
    }
  }

  predicate HasDroppable(p: Protocol, q: seq<Msg>) {
    exists j :: 0 <= j < |q| - 2 && IsUpdate(p, q[j].call)
  }

  /** A pass shortens the queue exactly if there is an update before the last two messages. */
  lemma PassShrinks(c: Config, s: Store)
    ensures |DropPass(c, s, 0, true).tx| < |s.tx| <==> HasDroppable(c.protocol, s.tx)
    ensures !HasDroppable(c.protocol, s.tx) ==> DropPass(c, s, 0, true).tx == s.tx
  {
    var p, q := c.protocol, s.tx;
    var mask := DropMask(p, q, true);
    PassKeepsUnmasked(c, s);
    if HasDroppable(p, q) {
      var j :| 0 <= j < |q| - 2 && IsUpdate(p, q[j].call);
      MaskRule(p, q, true, j);
      UnmaskedShorter(q, mask, if mask[j] then j else j - 1);
    } else {
      forall j | 0 <= j < |mask| ensures !mask[j] { MaskRule(p, q, true, j); }
      UnmaskedLength(q, mask);
    }
  }

  /** a is b with some elements left out. */
  predicate Subsequence<T(==)>(a: seq<T>, b: seq<T>) {
    if a == [] then true
    else if b == [] then false
    else if a[0] == b[0] && Subsequence(a[1..], b[1..]) then true
    else Subsequence(a, b[1..])
  }

  lemma {:induction false} SubsequenceRefl<T>(a: seq<T>)
    ensures Subsequence(a, a)
  {
    if a != [] { SubsequenceRefl(a[1..]); }
  }

  lemma {:induction false} SubsequenceTrans<T>(a: seq<T>, b: seq<T>, c: seq<T>)
    requires Subsequence(a, b) && Subsequence(b, c)
    ensures Subsequence(a, c)
    decreases |a| + |b| + |c|
  {
    if a == [] {
    } else if b[0] == c[0] && Subsequence(b[1..], c[1..]) {
      if a[0] == b[0] && Subsequence(a[1..], b[1..]) {
        SubsequenceTrans(a[1..], b[1..], c[1..]);
      } else {
        SubsequenceTrans(a, b[1..], c[1..]);
        SubsequenceSkip(a, c);
      }
    } else {
      SubsequenceTrans(a, b, c[1..]);
      SubsequenceSkip(a, c);
    }
  }

  lemma SubsequenceSkip<T>(a: seq<T>, c: seq<T>)
    requires c != [] && Subsequence(a, c[1..])
    ensures Subsequence(a, c)
  {
  }

  lemma {:induction false} UnmaskedSub<T>(q: seq<T>, mask: seq<bool>)
    requires |q| == |mask|
    ensures Subsequence(Unmasked(q, mask), q)
  {
    if q != [] {
      UnmaskedSub(q[1..], mask[1..]);
      var u := Unmasked(q, mask);
      if mask[0] {
        SubsequenceSkip(u, q);
      } else {
        assert u[1..] == Unmasked(q[1..], mask[1..]);
      }
    }
  }

  lemma {:induction false} DropUpdatesExact(c: Config, s: Store)
    ensures var t := DropUpdates(c, s);
      && t.normal == s.normal && t.inFlight == s.inFlight && Subsequence(t.tx, s.tx)
      && (!Exceeds(c, t) || !HasDroppable(c.protocol, t.tx))
      && (!Exceeds(c, s) ==> t == s)
    decreases |s.tx|
  {
    SubsequenceRefl(s.tx);
    if Exceeds(c, s) {
      var u := DropPass(c, s, 0, true);
      DropPassExact(c, s, 0, true);
      PassKeepsUnmasked(c, s);
      PassShrinks(c, s);
      UnmaskedSub(s.tx, DropMask(c.protocol, s.tx, true));
      if |u.tx| < |s.tx| {
        DropUpdatesExact(c, u);
        SubsequenceTrans(DropUpdates(c, u).tx, u.tx, s.tx);
      }
    }
  }

  /** The outcome of overflow handling. It ends within the threshold, or with no
      normal message and no update before the last two transaction messages.
      The surviving normal messages are the newest, the surviving transaction
      messages keep their order, none of them goes while a normal message is
      left, and surviving normal messages mean that at most one batch too many went. */
  lemma OverflowOutcome(c: Config, s: Store)
    ensures var t := CheckQueueSizes(c, s);
      && (!Exceeds(c, t) || (t.normal == [] && !HasDroppable(c.protocol, t.tx)))
      && |t.normal| <= |s.normal| && t.normal == s.normal[|s.normal| - |t.normal|..]
      && Subsequence(t.tx, s.tx) && t.inFlight == s.inFlight
      && (t.tx != s.tx ==> t.normal == [])
      && (Exceeds(c, s) && t.normal != [] ==> |t.tx| + |t.normal| > c.threshold - Max(c.threshold / 10, 1))
  {
    DropNormalsExact(c, s);
    DropUpdatesExact(c, DropNormals(c, s));
  }
}
