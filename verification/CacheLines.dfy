/** Facts about single lines of answers, and the shape every reachable cache keeps. */
module CacheLines {
  import opened Prelude
  import opened CacheSpec

  lemma {:induction false} WithoutAt<B>(line: Line<B>, k: nat)
    requires DistinctIdentities(line) && k < |line|
    ensures Without(line, line[k].identity) == RemoveAt(line, k)
  {
    if k == 0 {
      WithoutAbsent(line[1..], line[k].identity);
    } else {
      WithoutAt(line[1..], k - 1);
      assert RemoveAt(line, k) == [line[0]] + RemoveAt(line[1..], k - 1);
    }
  }

  lemma {:induction false} WithoutAbsent<B>(line: Line<B>, id: RouteIdentity)
    requires forall i :: 0 <= i < |line| ==> line[i].identity != id
    ensures Without(line, id) == line
  {
    if line != [] {
      WithoutAbsent(line[1..], id);
    }
  }

  /** With distinct identities, `Without` removes one answer or none. */
  lemma {:induction false} WithoutCases<B>(line: Line<B>, id: RouteIdentity) returns (k: nat)
    requires DistinctIdentities(line)
    ensures k <= |line|
    ensures k < |line| ==>
      line[k].identity == id && Without(line, id) == RemoveAt(line, k) && Find(line, id) == Some(line[k])
    ensures k == |line| ==>
      (forall i :: 0 <= i < |line| ==> line[i].identity != id) && Without(line, id) == line && Find(line, id) == None
  {
    var found := Find(line, id);
    if found.Some? {
      k :| 0 <= k < |line| && line[k] == found.value;
      WithoutAt(line, k);
    } else {
      k := |line|;
      WithoutAbsent(line, id);
    }
  }

  lemma {:induction false} IdsAppend(a: Line<Route>, b: Line<Route>)
    ensures Ids(a + b) == Ids(a) + Ids(b)
  {
    if a == [] {
      assert a + b == b;
    } else {
      assert (a + b)[1..] == a[1..] + b;
      IdsAppend(a[1..], b);
    }
  }

  lemma IdsNone()
    ensures Ids([]) == []
  {
  }

  lemma IdsGrow(line: Line<Route>, s: Slot<Route>)
    ensures Ids(line + [s]) == Ids(line) + OptSeq(s.body.subscription)
  {
    IdsAppend(line, [s]);
  }

  lemma IdsOne(s: Slot<Route>)
    ensures Ids([s]) == OptSeq(s.body.subscription)
  {
  }

  /** One turn of a sweep: the answer that is due first leaves. */
  lemma SweepTurn<B>(line: Line<B>, now: nat, limit: nat)
    requires limit > 0 && line != [] && line[Earliest(line)].expiresAt <= now && DistinctIdentities(line)
    ensures
      var k := Earliest(line);
      var rest := Sweep(Without(line, line[k].identity), now, limit - 1);
      && Sweep(line, now, limit) == Swept(rest.kept, [line[k]] + rest.gone)
      && Find(line, line[k].identity) == Some(line[k])
      && |Without(line, line[k].identity)| == |line| - 1
  {
    WithoutAt(line, Earliest(line));
    var k := WithoutCases(line, line[Earliest(line)].identity);
  }

  lemma RefreshAt(line: Line<Route>, k: nat, matched: RouteIdentity, entry: RouteEntry, expiresAt: nat)
    requires DistinctIdentities(line) && k < |line|
    ensures Refresh(line, line[k].identity, matched, entry, expiresAt) ==
      line[k := Slot(line[k].identity, expiresAt, Route(line[k].body.subscription, matched, entry))]
  {
  }

  lemma RefreshAbsent(line: Line<Route>, id: RouteIdentity, matched: RouteIdentity, entry: RouteEntry, expiresAt: nat)
    requires Find(line, id) == None
    ensures Refresh(line, id, matched, entry, expiresAt) == line
  {
  }

  lemma TidyDistinct(v: View)
    requires Tidy(v)
    ensures DistinctIdentities(v.hits) && DistinctIdentities(v.misses) && DistinctSubscriptions(v.hits)
  {
  }

  lemma DropHit(v: View, k: nat)
    requires Tidy(v) && k < |v.hits|
    ensures Tidy(v.(hits := RemoveAt(v.hits, k)))
  {
  }

  lemma DropMiss(v: View, k: nat)
    requires Tidy(v) && k < |v.misses|
    ensures Tidy(v.(misses := RemoveAt(v.misses, k)))
  {
  }

  lemma WithoutHitTidy(v: View, id: RouteIdentity)
    requires Tidy(v)
    ensures Tidy(v.(hits := Without(v.hits, id)))
  {
    var k := WithoutCases(v.hits, id);
    if k < |v.hits| { DropHit(v, k); }
  }

  lemma WithoutMissTidy(v: View, id: RouteIdentity)
    requires Tidy(v)
    ensures Tidy(v.(misses := Without(v.misses, id)))
  {
    var k := WithoutCases(v.misses, id);
    if k < |v.misses| { DropMiss(v, k); }
  }

  lemma {:induction false} SweptHitsTidy(v: View, now: nat, limit: nat)
    requires Tidy(v)
    ensures Tidy(v.(hits := Sweep(v.hits, now, limit).kept))
    decreases limit
  {
    if limit != 0 && v.hits != [] && v.hits[Earliest(v.hits)].expiresAt <= now {
      var k := Earliest(v.hits);
      DropHit(v, k);
      SweptHitsTidy(v.(hits := RemoveAt(v.hits, k)), now, limit - 1);
    }
  }

  lemma {:induction false} SweptMissesTidy(v: View, now: nat, limit: nat)
    requires Tidy(v)
    ensures Tidy(v.(misses := Sweep(v.misses, now, limit).kept))
    decreases limit
  {
    if limit != 0 && v.misses != [] && v.misses[Earliest(v.misses)].expiresAt <= now {
      var k := Earliest(v.misses);
      DropMiss(v, k);
      SweptMissesTidy(v.(misses := RemoveAt(v.misses, k)), now, limit - 1);
    }
  }

  lemma ExpireWellFormed(v: View, now: nat, limit: nat)
    requires WellFormed(v)
    ensures WellFormed(ExpireLimited(v, now, limit).view)
  {
    var hits := Sweep(v.hits, now, limit);
    SweptHitsTidy(v, now, limit);
    SweptMissesTidy(v.(hits := hits.kept), now, limit - |hits.gone|);
  }

  lemma UnaliasedTidy(v: View, subscription: Option<SubscriptionId>)
    requires Tidy(v)
    ensures Tidy(v.(hits := Unaliased(v.hits, subscription)))
    ensures |Unaliased(v.hits, subscription)| <= |v.hits|
    ensures subscription.Some? ==> forall i :: 0 <= i < |Unaliased(v.hits, subscription)| ==>
      Unaliased(v.hits, subscription)[i].body.subscription != subscription
    ensures forall s :: s in Unaliased(v.hits, subscription) ==> s in v.hits
  {
    if subscription.Some? && Holder(v.hits, subscription.value).Some? {
      var id := Holder(v.hits, subscription.value).value;
      var k := WithoutCases(v.hits, id);
      DropHit(v, k);
    }
  }

  lemma {:induction false} WithoutExcludes<B>(line: Line<B>, id: RouteIdentity)
    ensures forall i :: 0 <= i < |Without(line, id)| ==> Without(line, id)[i].identity != id
    ensures forall s :: s in Without(line, id) ==> s in line
  {
    if line != [] {
      WithoutExcludes(line[1..], id);
    }
  }

  lemma JoinHit(v: View, s: Slot<Route>)
    requires Tidy(v)
    requires forall i :: 0 <= i < |v.hits| ==> v.hits[i].identity != s.identity
    requires forall i :: 0 <= i < |v.misses| ==> v.misses[i].identity != s.identity
    requires s.body.subscription.Some? ==> forall i :: 0 <= i < |v.hits| ==>
      v.hits[i].body.subscription != s.body.subscription
    ensures Tidy(v.(hits := v.hits + [s]))
  {
  }

  lemma JoinMiss(v: View, s: Slot<Nothing>)
    requires Tidy(v)
    requires forall i :: 0 <= i < |v.hits| ==> v.hits[i].identity != s.identity
    requires forall i :: 0 <= i < |v.misses| ==> v.misses[i].identity != s.identity
    ensures Tidy(v.(misses := v.misses + [s]))
  {
  }

  lemma NewestTidy(v: View, n: nat, m: nat)
    requires Tidy(v) && n <= |v.hits| && m <= |v.misses|
    ensures Tidy(v.(hits := v.hits[n..], misses := v.misses[m..]))
  {
  }

  lemma RefreshTidy(v: View, id: RouteIdentity, matched: RouteIdentity, entry: RouteEntry, expiresAt: nat)
    requires Tidy(v)
    ensures Tidy(v.(hits := Refresh(v.hits, id, matched, entry, expiresAt)))
  {
  }

  /** The line an accepted answer joins: identities and IDs stay unique. */
  lemma JoinedTidy(v: View, request: RouteIdentity, incoming: Route, expiresAt: nat)
    requires Tidy(v)
    ensures Tidy(v.(hits := Joined(v.hits, request, incoming, expiresAt), misses := Without(v.misses, request)))
    ensures |Joined(v.hits, request, incoming, expiresAt)| <= |v.hits| + 1
  {
    var a := v.(misses := Without(v.misses, request));
    WithoutMissTidy(v, request);
    WithoutExcludes(v.misses, request);
    var b := a.(hits := Without(v.hits, request));
    WithoutHitTidy(a, request);
    WithoutExcludes(v.hits, request);
    var c := b.(hits := Unaliased(b.hits, incoming.subscription));
    UnaliasedTidy(b, incoming.subscription);
    assert forall i :: 0 <= i < |c.hits| ==> c.hits[i] in b.hits;
    JoinHit(c, Slot(request, expiresAt, incoming));
  }

  lemma InsertResolvedWellFormed(v: View, request: RouteIdentity, incoming: Route, expiresAt: nat, now: nat)
    requires WellFormed(v)
    ensures WellFormed(InsertResolved(v, request, incoming, expiresAt, now).view)
  {
    ExpireWellFormed(v, now, INSERT_EXPIRY_BUDGET);
    var swept := ExpireLimited(v, now, INSERT_EXPIRY_BUDGET).view;
    if RefusesIncoming(swept, request, incoming) {
      WithoutHitTidy(swept, request);
    } else {
      JoinedTidy(swept, request, incoming, expiresAt);
      var full := Joined(swept.hits, request, incoming, expiresAt);
      NewestTidy(swept.(hits := full, misses := Without(swept.misses, request)), Over(full, v.capacity), 0);
    }
  }

  lemma InsertNegativeWellFormed(v: View, request: RouteIdentity, ttl: nat, now: nat)
    requires WellFormed(v)
    ensures WellFormed(InsertNegative(v, request, ttl, now).view)
  {
    ExpireWellFormed(v, now, INSERT_EXPIRY_BUDGET);
    var swept := ExpireLimited(v, now, INSERT_EXPIRY_BUDGET).view;
    WithoutHitTidy(swept, request);
    WithoutExcludes(swept.hits, request);
    var w := swept.(hits := Without(swept.hits, request));
    WithoutMissTidy(w, request);
    WithoutExcludes(w.misses, request);
    var joined := w.(misses := Without(w.misses, request) + [Slot(request, now + ttl, Nothing)]);
    JoinMiss(w.(misses := Without(w.misses, request)), Slot(request, now + ttl, Nothing));
    NewestTidy(joined, 0, Over(joined.misses, v.capacity));
  }

  /** Every operation keeps identities and IDs unique and both halves within capacity. */
  lemma StepWellFormed(v: View, op: Op)
    requires WellFormed(v)
    ensures WellFormed(Step(v, op).view) && Step(v, op).view.capacity == v.capacity
  {
    hide Tidy, Without, Sweep, Find, Holder, Refresh, Unregistered;
    match op
    case OpInsertResolved(request, incoming, expiresAt, now) =>
      InsertResolvedWellFormed(v, request, incoming, expiresAt, now);
    case OpInsertNegative(request, ttl, now) => InsertNegativeWellFormed(v, request, ttl, now);
    case OpExpire(now, limit) => ExpireWellFormed(v, now, limit);
    case OpInvalidateSubscription(id) => UnaliasedTidy(v, Some(id));
    case OpInvalidateRequest(request) => WithoutHitTidy(v, request);
    case OpReplace(id, matched, entry, ttl, now) => ReplaceWellFormed(v, id, matched, entry, ttl, now);
    case OpRefresh(request, matched, entry, ttl, now) => RefreshTidy(v, request, matched, entry, now + ttl);
    case OpUpdate(id, matched, entry, ttl, now) => ReplaceWellFormed(v, id, matched, entry, ttl, now);
    case OpReadyWake(cached, ready, now) =>
      RefreshTidy(v, cached.identity, cached.body.matched, ready, now + Max(cached.expiresAt - now, 0));
    case OpRotate => UnregisteredTidy(v);
    case OpClear => EmptyTidy(v.capacity);
  }

  lemma ReplaceWellFormed(v: View, id: SubscriptionId, matched: RouteIdentity, entry: RouteEntry, ttl: nat, now: nat)
    requires WellFormed(v)
    ensures WellFormed(ReplaceSubscription(v, id, matched, entry, ttl, now))
  {
    if Holder(v.hits, id).Some? {
      RefreshTidy(v, Holder(v.hits, id).value, matched, entry, now + ttl);
    }
  }

  lemma EmptyTidy(capacity: nat)
    ensures Tidy(Empty(capacity))
  {
  }

  lemma UnregisteredTidy(v: View)
    requires Tidy(v)
    ensures Tidy(RotateSession(v))
  {
  }

  /** In every run the cache is well formed; in particular neither half exceeds capacity. */
  lemma {:induction false} RunWellFormed(capacity: nat, ops: seq<Op>)
    ensures
      var v := Run(Empty(capacity), ops).view;
      WellFormed(v) && v.capacity == capacity
    decreases |ops|
  {
    if ops != [] {
      RunWellFormed(capacity, ops[..|ops| - 1]);
      StepWellFormed(Run(Empty(capacity), ops[..|ops| - 1]).view, ops[|ops| - 1]);
    }
  }
}
