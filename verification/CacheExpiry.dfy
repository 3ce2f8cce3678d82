/** Budgeted expiry: passes compose, and they change nothing but expired answers. */
module CacheExpiry {
  import opened Prelude
  import opened CacheSpec
  import opened CacheLines

  /** How many answers are due at `now`. */
  function DueCount<B>(line: Line<B>, now: nat): (n: nat)
    ensures n <= |line|
  {
    if line == [] then 0 else (if line[0].expiresAt <= now then 1 else 0) + DueCount(line[1..], now)
  }

  lemma {:induction false} DueCountAppend<B>(a: Line<B>, b: Line<B>, now: nat)
    ensures DueCount(a + b, now) == DueCount(a, now) + DueCount(b, now)
  {
    if a == [] {
      assert a + b == b;
    } else {
      assert (a + b)[1..] == a[1..] + b;
      DueCountAppend(a[1..], b, now);
    }
  }

  lemma DueCountRemove<B>(line: Line<B>, k: nat, now: nat)
    requires k < |line|
    ensures DueCount(line, now) == DueCount(RemoveAt(line, k), now) + (if line[k].expiresAt <= now then 1 else 0)
  {
    var a, b := line[..k], line[k + 1..];
    assert line == a + ([line[k]] + b);
    DueCountAppend(a, [line[k]] + b, now);
    DueCountAppend([line[k]], b, now);
    DueCountAppend(a, b, now);
  }

  lemma {:induction false} NoneDue<B>(line: Line<B>, now: nat)
    ensures DueCount(line, now) == 0 <==> forall s :: s in line ==> s.expiresAt > now
  {
    if line != [] {
      NoneDue(line[1..], now);
      assert line[0] in line;
    }
  }

  /** A pass removes as many due answers as its budget allows. */
  lemma {:induction false} SweepCount<B>(line: Line<B>, now: nat, limit: nat)
    ensures
      var s := Sweep(line, now, limit);
      && |s.gone| == Min(limit, DueCount(line, now))
      && DueCount(s.kept, now) == DueCount(line, now) - |s.gone|
    decreases limit
  {
    if limit != 0 && line != [] {
      var k := Earliest(line);
      if line[k].expiresAt <= now {
        DueCountRemove(line, k, now);
        SweepCount(RemoveAt(line, k), now, limit - 1);
      } else {
        NoneDue(line, now);
      }
    }
  }

  ghost predicate SweepsOne<B>(line: Line<B>, now: nat) {
    line != [] && line[Earliest(line)].expiresAt <= now
  }

  lemma SweepOne<B>(line: Line<B>, now: nat, limit: nat)
    requires SweepsOne(line, now) && limit > 0
    ensures
      var k := Earliest(line);
      var rest := Sweep(RemoveAt(line, k), now, limit - 1);
      Sweep(line, now, limit) == Swept(rest.kept, [line[k]] + rest.gone)
  {
  }

  lemma SweepNone<B>(line: Line<B>, now: nat, limit: nat)
    requires !SweepsOne(line, now) || limit == 0
    ensures Sweep(line, now, limit) == Swept(line, [])
  {
  }

  lemma {:induction false} SweepComposes<B>(line: Line<B>, now: nat, a: nat, b: nat)
    ensures
      var first := Sweep(line, now, a);
      var second := Sweep(first.kept, now, b);
      Sweep(line, now, a + b) == Swept(second.kept, first.gone + second.gone)
    decreases a
  {
    hide Sweep, RemoveAt;
    if a == 0 || !SweepsOne(line, now) {
      SweepNone(line, now, a);
      if a != 0 {
        SweepNone(line, now, b);
        SweepNone(line, now, a + b);
      }
    } else {
      SweepOne(line, now, a);
      SweepOne(line, now, a + b);
      SweepComposes(RemoveAt(line, Earliest(line)), now, a - 1, b);
    }
  }

  /** Nothing due: a pass of any budget is a no-op. */
  lemma SweepIdle<B>(line: Line<B>, now: nat, limit: nat)
    requires DueCount(line, now) == 0
    ensures Sweep(line, now, limit) == Swept(line, [])
  {
    NoneDue(line, now);
    if line != [] {
      assert line[Earliest(line)] in line;
    }
  }

  /** Two passes are one pass with the summed budget, in state and in reported IDs. */
  lemma ExpireComposes(v: View, now: nat, a: nat, b: nat)
    ensures
      var first := ExpireLimited(v, now, a);
      var second := ExpireLimited(first.view, now, b);
      ExpireLimited(v, now, a + b) == Outcome(second.view, first.released + second.released)
  {
    hide Sweep, Ids;
    var hits := Sweep(v.hits, now, a);
    var hits' := Sweep(hits.kept, now, b);
    SweepComposes(v.hits, now, a, b);
    IdsAppend(hits.gone, hits'.gone);
    SweepCount(v.hits, now, a);
    SweepComposes(v.misses, now, a - |hits.gone|, b - |hits'.gone|);
    if |hits.gone| < a {
      SweepIdle(hits.kept, now, b);
    } else {
      SweepNothing(v.misses, now);
    }
  }

  lemma SweepNothing<B>(line: Line<B>, now: nat)
    ensures Sweep(line, now, 0) == Swept(line, [])
  {
  }

  ghost function Backlog(v: View, now: nat): nat { DueCount(v.hits, now) + DueCount(v.misses, now) }

  lemma HasBacklog(v: View, now: nat)
    ensures HasExpired(v, now) <==> Backlog(v, now) > 0
  {
    NoneDue(v.hits, now);
    NoneDue(v.misses, now);
  }

  lemma ExpireBacklog(v: View, now: nat, limit: nat)
    ensures Backlog(ExpireLimited(v, now, limit).view, now) == Backlog(v, now) - Min(limit, Backlog(v, now))
  {
    hide Sweep, DueCount, Ids;
    SweepCount(v.hits, now, limit);
    SweepCount(v.misses, now, limit - |Sweep(v.hits, now, limit).gone|);
  }

  /**
   Expired answers remain after a pass exactly when there were more of them
   than its budget; and a pass with a budget changes the cache exactly when
   `HasExpired` says so.
   */
  lemma ExpiryIsExact(v: View, now: nat, limit: nat)
    ensures HasExpired(ExpireLimited(v, now, limit).view, now) <==> Backlog(v, now) > limit
    ensures limit > 0 ==> (HasExpired(v, now) <==> ExpireLimited(v, now, limit).view != v)
  {
    hide Sweep, HasExpired, DueCount, Ids, Backlog;
    HasBacklog(v, now);
    HasBacklog(ExpireLimited(v, now, limit).view, now);
    ExpireBacklog(v, now, limit);
    if Backlog(v, now) == 0 {
      IdleExpiry(v, now, limit);
    }
  }

  lemma IdleExpiry(v: View, now: nat, limit: nat)
    requires Backlog(v, now) == 0
    ensures ExpireLimited(v, now, limit) == Outcome(v, [])
  {
    hide Sweep;
    SweepIdle(v.hits, now, limit);
    SweepIdle(v.misses, now, limit);
  }

  lemma FindRemoveAt<B>(line: Line<B>, k: nat, id: RouteIdentity)
    requires DistinctIdentities(line) && k < |line|
    ensures Find(RemoveAt(line, k), id) == if id == line[k].identity then None else Find(line, id)
  {
    hide Find, RemoveAt, DistinctIdentities;
    var rest := RemoveAt(line, k);
    FindAt(line, k);
    RemovedElements(line, k);
    var after, before := Find(rest, id), Find(line, id);
    if after.Some? {
      var j :| 0 <= j < |line| && j != k && line[j] == after.value;
      FindAt(line, j);
      ApartAt(line, j, k);
    } else if before.Some? {
      var j :| 0 <= j < |line| && line[j] == before.value;
      assert j != k ==> line[j] in rest;
    }
  }

  lemma ApartAt<B>(line: Line<B>, j: nat, k: nat)
    requires DistinctIdentities(line) && j < |line| && k < |line| && j != k
    ensures line[j].identity != line[k].identity
  {
  }

  lemma RemovedElements<T>(s: seq<T>, k: nat)
    requires k < |s|
    ensures forall i :: 0 <= i < |s| && i != k ==> s[i] in RemoveAt(s, k)
    ensures forall x :: x in RemoveAt(s, k) ==> exists j :: 0 <= j < |s| && j != k && s[j] == x
  {
    forall i | 0 <= i < |s| && i != k ensures s[i] in RemoveAt(s, k) {
      assert RemoveAt(s, k)[if i < k then i else i - 1] == s[i];
    }
    forall x | x in RemoveAt(s, k) ensures exists j :: 0 <= j < |s| && j != k && s[j] == x {
      var i :| 0 <= i < |s| - 1 && RemoveAt(s, k)[i] == x;
      var j := if i < k then i else i + 1;
      assert s[j] == x;
    }
  }

  /** A pass leaves an answer alone or drops it because it was due. */
  lemma {:induction false} SweepFinds<B>(line: Line<B>, now: nat, limit: nat, id: RouteIdentity)
    requires DistinctIdentities(line)
    ensures
      var kept := Sweep(line, now, limit).kept;
      || Find(kept, id) == Find(line, id)
      || (Find(kept, id) == None && Find(line, id).Some? && Find(line, id).value.expiresAt <= now)
    decreases limit
  {
    hide Find, RemoveAt;
    if limit != 0 && line != [] && line[Earliest(line)].expiresAt <= now {
      var k := Earliest(line);
      FindRemoveAt(line, k, id);
      FindAt(line, k);
      RemoveAtDistinct(line, k);
      SweepFinds(RemoveAt(line, k), now, limit - 1, id);
    }
  }

  lemma FindAt<B>(line: Line<B>, k: nat)
    requires DistinctIdentities(line) && k < |line|
    ensures Find(line, line[k].identity) == Some(line[k])
  {
    var i := WithoutCases(line, line[k].identity);
  }

  lemma RemoveAtDistinct<B>(line: Line<B>, k: nat)
    requires DistinctIdentities(line) && k < |line|
    ensures DistinctIdentities(RemoveAt(line, k))
  {
  }

  /** How many answers are due before the `k`-th, by (deadline, insertion). */
  function Rank<B>(line: Line<B>, k: nat): nat
    requires k < |line|
  {
    var d := line[k].expiresAt;
    DueCount(line[..k], d) + if d == 0 then 0 else DueCount(line[k + 1..], d - 1)
  }

  /** The answer survives a pass with this budget: it is not due, or that many others are due before it. */
  predicate Outlives<B>(line: Line<B>, now: nat, limit: nat, k: nat)
    requires k < |line|
  {
    line[k].expiresAt > now || Rank(line, k) >= limit
  }

  lemma RemovedBefore<T>(s: seq<T>, e: nat, k: nat)
    requires e < k < |s|
    ensures RemoveAt(s, e)[k - 1] == s[k]
    ensures RemoveAt(s, e)[..k - 1] == RemoveAt(s[..k], e) && RemoveAt(s, e)[k..] == s[k + 1..]
  {
  }

  lemma RemovedAfter<T>(s: seq<T>, e: nat, k: nat)
    requires k < e < |s|
    ensures RemoveAt(s, e)[k] == s[k]
    ensures RemoveAt(s, e)[..k] == s[..k] && RemoveAt(s, e)[k + 1..] == RemoveAt(s[k + 1..], e - k - 1)
  {
  }

  /** Removing the first answer due moves every other one up by one. */
  lemma RankRemove<B>(line: Line<B>, e: nat, k: nat)
    requires k < |line| && e == Earliest(line) && k != e
    ensures
      var k' := if e < k then k - 1 else k;
      && RemoveAt(line, e)[k'] == line[k]
      && Rank(line, k) == Rank(RemoveAt(line, e), k') + 1
  {
    hide DueCount, RemoveAt, Earliest, Rank;
    if e < k {
      RankPast(line, e, k);
    } else {
      RankAhead(line, e, k);
    }
  }

  lemma RankPast<B>(line: Line<B>, e: nat, k: nat)
    requires e < k < |line| && line[e].expiresAt <= line[k].expiresAt
    ensures RemoveAt(line, e)[k - 1] == line[k] && Rank(line, k) == Rank(RemoveAt(line, e), k - 1) + 1
  {
    hide DueCount, RemoveAt;
    RemovedBefore(line, e, k);
    DueCountRemove(line[..k], e, line[k].expiresAt);
  }

  lemma RankAhead<B>(line: Line<B>, e: nat, k: nat)
    requires k < e < |line| && line[e].expiresAt < line[k].expiresAt
    ensures RemoveAt(line, e)[k] == line[k] && Rank(line, k) == Rank(RemoveAt(line, e), k) + 1
  {
    hide DueCount, RemoveAt;
    RemovedAfter(line, e, k);
    DueCountRemove(line[k + 1..], e - k - 1, line[k].expiresAt - 1);
  }

  lemma EarliestRanksFirst<B>(line: Line<B>)
    requires line != []
    ensures Rank(line, Earliest(line)) == 0
  {
    var k := Earliest(line);
    var d := line[k].expiresAt;
    NoneDue(line[..k], d);
    if d > 0 {
      NoneDue(line[k + 1..], d - 1);
    }
  }

  /** A pass drops an answer exactly if it is due and the budget reaches it. */
  lemma {:induction false} SweptExactly<B>(line: Line<B>, now: nat, limit: nat, k: nat)
    requires DistinctIdentities(line) && k < |line|
    ensures Find(Sweep(line, now, limit).kept, line[k].identity).None? <==>
      line[k].expiresAt <= now && Rank(line, k) < limit
    decreases limit
  {
    hide Find, RemoveAt, Sweep, Rank, DistinctIdentities;
    FindAt(line, k);
    var e := Earliest(line);
    if limit == 0 || !SweepsOne(line, now) {
      SweepNone(line, now, limit);
    } else {
      SweepOne(line, now, limit);
      EarliestRanksFirst(line);
      RemoveAtDistinct(line, e);
      if k == e {
        SweepFinds(RemoveAt(line, e), now, limit - 1, line[k].identity);
        FindRemoveAt(line, e, line[k].identity);
      } else {
        RankRemove(line, e, k);
        SweptExactly(RemoveAt(line, e), now, limit - 1, if e < k then k - 1 else k);
      }
    }
  }

  /** From now on no lookup can tell an expiry pass from waiting, except Expired turning Absent. */
  lemma ExpireLookups(v: View, now: nat, limit: nat, id: RouteIdentity, t: nat)
    requires WellFormed(v) && now <= t
    ensures
      var before, after := LookupAt(v, id, t), LookupAt(ExpireLimited(v, now, limit).view, id, t);
      after == before || (before == Expired && after == Absent)
  {
    hide Sweep, Find;
    var left := limit - |Sweep(v.hits, now, limit).gone|;
    SweepFinds(v.hits, now, limit, id);
    SweepFinds(v.misses, now, left, id);
    FindOneSide(v, id);
  }

  lemma FindOneSide(v: View, id: RouteIdentity)
    requires Tidy(v)
    ensures Find(v.hits, id).None? || Find(v.misses, id).None?
  {
    var i := WithoutCases(v.hits, id);
    var j := WithoutCases(v.misses, id);
  }

  /** With budget for the whole backlog, every Expired becomes Absent. */
  lemma ExpireAllLookups(v: View, now: nat, limit: nat, id: RouteIdentity)
    requires WellFormed(v) && Backlog(v, now) <= limit
    ensures
      LookupAt(ExpireLimited(v, now, limit).view, id, now) ==
        if LookupAt(v, id, now) == Expired then Absent else LookupAt(v, id, now)
  {
    hide Sweep, DueCount, Tidy, ExpireLimited;
    var after := ExpireLimited(v, now, limit).view;
    ExpireLookups(v, now, limit, id, now);
    ExpiryIsExact(v, now, limit);
    var hit, miss := Find(after.hits, id), Find(after.misses, id);
    assert hit.Some? ==> hit.value.expiresAt > now;
    assert miss.Some? ==> miss.value.expiresAt > now;
  }
}
