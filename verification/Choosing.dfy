/** Sequences of chosen elements, described by position. */
module Choosing {
  /** The elements at the chosen positions, in order. */
  ghost function Chosen<T>(s: seq<T>, keep: nat -> bool): seq<T> {
    if s == [] then []
    else
      var n := |s| - 1;
      Chosen(s[..n], keep) + if keep(n) then [s[n]] else []
  }

  /** How many positions of a stretch are chosen. */
  ghost function CountIn(keep: nat -> bool, from: nat, end: nat): nat
    decreases end
  {
    if from >= end then 0 else CountIn(keep, from, end - 1) + if keep(end - 1) then 1 else 0
  }

  ghost function Last<T>(s: seq<T>, m: nat): seq<T> { if |s| <= m then s else s[|s| - m..] }

  lemma ChosenStep<T>(s: seq<T>, p: nat -> bool)
    requires s != []
    ensures Chosen(s, p) == Chosen(s[..|s| - 1], p) + if p(|s| - 1) then [s[|s| - 1]] else []
  {
  }

  lemma {:induction false} ChosenSame<T>(s: seq<T>, p: nat -> bool, q: nat -> bool)
    requires forall i: nat :: i < |s| ==> p(i) == q(i)
    ensures Chosen(s, p) == Chosen(s, q)
  {
    if s != [] {
      ChosenSame(s[..|s| - 1], p, q);
    }
  }

  lemma {:induction false} ChosenAll<T>(s: seq<T>, p: nat -> bool)
    requires forall i: nat :: i < |s| ==> p(i)
    ensures Chosen(s, p) == s
  {
    if s != [] {
      ChosenAll(s[..|s| - 1], p);
    }
  }

  lemma {:induction false} ChosenMember<T>(s: seq<T>, p: nat -> bool, x: T)
    ensures x in Chosen(s, p) <==> exists i: nat :: i < |s| && p(i) && s[i] == x
  {
    if s != [] {
      var n := |s| - 1;
      ChosenMember(s[..n], p, x);
      if i: nat :| i < n && p(i) && s[..n][i] == x {
        assert s[i] == x;
      }
      if i: nat :| i < |s| && p(i) && s[i] == x {
        if i < n {
          assert s[..n][i] == x;
        }
      }
    }
  }

  ghost function Dropped<T>(s: seq<T>, e: nat): seq<T>
    requires e < |s|
  {
    s[..e] + s[e + 1..]
  }

  ghost function Shifted(p: nat -> bool, e: nat): nat -> bool { (i: nat) => p(if i < e then i else i + 1) }

  /** Leaving out a position that is not chosen anyway. */
  lemma {:induction false} ChosenRemove<T>(s: seq<T>, e: nat, p: nat -> bool)
    requires e < |s| && !p(e)
    ensures Chosen(s, p) == Chosen(Dropped(s, e), Shifted(p, e))
  {
    var n := |s| - 1;
    if e == n {
      assert Dropped(s, e) == s[..n];
      ChosenSame(s[..n], p, Shifted(p, e));
    } else {
      var rest := Dropped(s, e);
      assert rest[..n - 1] == Dropped(s[..n], e) && rest[n - 1] == s[n];
      ChosenRemove(s[..n], e, p);
    }
  }

  /** Chosen, with fewer than `m` chosen after it before position `end`. */
  ghost function Among(p: nat -> bool, m: int, end: nat): nat -> bool {
    (k: nat) => p(k) && CountIn(p, k + 1, end) < m
  }

  lemma AmongStep<T>(s: seq<T>, p: nat -> bool, m: int, n: nat)
    requires n == |s|
    ensures Chosen(s, Among(p, m, n + 1)) == Chosen(s, Among(p, if p(n) then m - 1 else m, n))
  {
    hide Chosen;
    var m' := if p(n) then m - 1 else m;
    forall k: nat | k < n ensures Among(p, m, n + 1)(k) == Among(p, m', n)(k) {
      assert CountIn(p, k + 1, n + 1) == CountIn(p, k + 1, n) + if p(n) then 1 else 0;
    }
    ChosenSame(s, Among(p, m, n + 1), Among(p, m', n));
  }

  lemma {:induction false} ChosenNone<T>(s: seq<T>, p: nat -> bool)
    requires forall i: nat :: i < |s| ==> !p(i)
    ensures Chosen(s, p) == []
  {
    if s != [] {
      ChosenNone(s[..|s| - 1], p);
    }
  }

  /** The last few of the chosen are those with few chosen after them. */
  lemma {:induction false} LastChosen<T>(s: seq<T>, p: nat -> bool, m: nat)
    ensures Last(Chosen(s, p), m) == Chosen(s, Among(p, m, |s|))
  {
    hide CountIn;
    if s != [] {
      var n := |s| - 1;
      AmongStep(s[..n], p, m, n);
      if m == 0 {
        forall i: nat | i < |s| ensures !Among(p, m, |s|)(i) {
          assert CountIn(p, i + 1, |s|) >= 0;
        }
        ChosenNone(s, Among(p, m, |s|));
      } else if p(n) {
        LastChosen(s[..n], p, m - 1);
        LastGrows(Chosen(s[..n], p), s[n], m);
        NoneAfter(p, n + 1);
      } else {
        LastChosen(s[..n], p, m);
      }
    }
  }

  lemma NoneAfter(p: nat -> bool, n: nat)
    ensures CountIn(p, n, n) == 0
  {
  }

  lemma LastGrows<T>(s: seq<T>, x: T, m: nat)
    requires m > 0
    ensures Last(s + [x], m) == Last(s, m - 1) + [x]
  {
  }

  /** The last few of the chosen and one more. */
  lemma LastAmong<T>(s: seq<T>, p: nat -> bool, x: T, m: nat)
    ensures Last(Chosen(s, p) + [x], m + 1) == Chosen(s, Among(p, m, |s|)) + [x]
  {
    hide Last, Chosen, Among;
    LastChosen(s, p, m);
    LastGrows(Chosen(s, p), x, m + 1);
  }
}
