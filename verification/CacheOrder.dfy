/** Generations order what the cache says about one instance. */
module CacheOrder {
  import opened Prelude
  import opened CacheSpec
  import opened CacheLines
  import opened CacheExpiry
  import opened CacheProvenance

  function EntryAt(v: View, id: RouteIdentity): Option<RouteEntry> {
    match Find(v.hits, id)
    case Some(hit) => Some(hit.body.entry)
    case None => None
  }

  /** Operations whose entry passes the staleness guard, or that bring no entry. */
  predicate Guarded(op: Op) { !op.OpReplace? && !op.OpRefresh? }

  /** The insertion does not find the answer already expired. */
  predicate Unexpired(v: View, op: Op, id: RouteIdentity) {
    op.OpInsertResolved? ==> match Find(v.hits, id) case Some(hit) => op.now < hit.expiresAt case None => true
  }

  lemma FindPart<B>(part: Line<B>, whole: Line<B>, id: RouteIdentity)
    requires DistinctIdentities(whole) && forall i :: 0 <= i < |part| ==> part[i] in whole
    ensures Find(part, id).None? || Find(part, id) == Find(whole, id)
  {
    var s := Find(part, id);
    if s.Some? {
      var i :| 0 <= i < |part| && part[i] == s.value;
      var k :| 0 <= k < |whole| && whole[k] == s.value;
      FindAt(whole, k);
    }
  }

  lemma InstalledFinds(v: View, request: RouteIdentity, incoming: Route, expiresAt: nat, id: RouteIdentity)
    requires Tidy(v)
    ensures
      var after := Find(Installed(v, request, incoming, expiresAt).view.hits, id);
      || after.None?
      || after == if id == request then Some(Slot(request, expiresAt, incoming)) else Find(v.hits, id)
  {
    hide Tidy, Find, Unaliased, Without, DistinctIdentities;
    var kept := Without(v.hits, request);
    WithoutHitTidy(v, request);
    UnaliasedTidy(v.(hits := kept), incoming.subscription);
    WithoutExcludes(v.hits, request);
    JoinedTidy(v, request, incoming, expiresAt);
    var full := Joined(v.hits, request, incoming, expiresAt);
    TidyDistinct(v);
    TidyDistinct(v.(hits := full, misses := Without(v.misses, request)));
    FindPart(full[Over(full, v.capacity)..], full, id);
    FindAt(full, |full| - 1);
    if id != request {
      var last := |full| - 1;
      FindPart(full[..last], v.hits, id);
      FindButLast(full, id);
    }
  }

  lemma FindButLast<B>(line: Line<B>, id: RouteIdentity)
    requires line != [] && line[|line| - 1].identity != id && DistinctIdentities(line)
    ensures Find(line, id) == Find(line[..|line| - 1], id)
  {
    hide DistinctIdentities;
    FindPart(line[..|line| - 1], line, id);
    assert line == line[..|line| - 1] + [line[|line| - 1]];
  }

  /** With room for one answer, the newest is always kept. */
  lemma InstalledLands(v: View, request: RouteIdentity, incoming: Route, expiresAt: nat)
    requires Tidy(v) && v.capacity > 0
    ensures Find(Installed(v, request, incoming, expiresAt).view.hits, request) ==
      Some(Slot(request, expiresAt, incoming))
  {
    hide Tidy, Find, Unaliased, Without;
    JoinedTidy(v, request, incoming, expiresAt);
    var full := Joined(v.hits, request, incoming, expiresAt);
    TidyDistinct(v.(hits := full, misses := Without(v.misses, request)));
    var newest := full[Over(full, v.capacity)..];
    assert newest[|newest| - 1] == full[|full| - 1];
    FindAt(newest, |newest| - 1);
  }

  /** An insertion leaves an unexpired answer in place, drops it, or follows it in order. */
  lemma InsertNoRollback(v: View, op: Op, id: RouteIdentity)
    requires WellFormed(v) && op.OpInsertResolved? && Unexpired(v, op, id) && EntryAt(v, id).Some?
    ensures
      var after := EntryAt(Step(v, op).view, id);
      after.Some? ==> NotOlder(EntryAt(v, id).value, after.value)
  {
    hide Tidy, Find, Installed, Without, Sweep, DistinctIdentities;
    var swept := ExpireLimited(v, op.now, INSERT_EXPIRY_BUDGET).view;
    ExpireWellFormed(v, op.now, INSERT_EXPIRY_BUDGET);
    TidyDistinct(v);
    SweepFinds(v.hits, op.now, INSERT_EXPIRY_BUDGET, id);
    assert Find(swept.hits, id) == Find(v.hits, id);
    FindWithout(swept.hits, op.request, id);
    InstalledFinds(swept, op.request, op.incoming, op.expiresAt, id);
  }

  /** No guarded step rolls an unexpired answer back within its instance. */
  lemma StepNoRollback(v: View, op: Op, id: RouteIdentity)
    requires WellFormed(v) && Guarded(op) && Unexpired(v, op, id) && EntryAt(v, id).Some?
    ensures
      var after := EntryAt(Step(v, op).view, id);
      after.Some? ==> NotOlder(EntryAt(v, id).value, after.value)
  {
    hide Tidy, Find, Installed, Without, Sweep, DistinctIdentities, Holder, Refresh, Unregistered;
    TidyDistinct(v);
    match op
    case OpInsertResolved(_, _, _, _) => InsertNoRollback(v, op, id);
    case OpInsertNegative(request, ttl, now) =>
      SweepFinds(v.hits, now, INSERT_EXPIRY_BUDGET, id);
      FindWithout(ExpireLimited(v, now, INSERT_EXPIRY_BUDGET).view.hits, request, id);
    case OpExpire(now, limit) => SweepFinds(v.hits, now, limit, id);
    case OpInvalidateSubscription(gone) =>
      var at := Holder(v.hits, gone);
      if at.Some? {
        FindWithout(v.hits, at.value, id);
      }
    case OpInvalidateRequest(request) => FindWithout(v.hits, request, id);
    case OpUpdate(sub, matched, entry, ttl, now) =>
      var at := Holder(v.hits, sub);
      if at.Some? {
        FindRefreshed(v.hits, at.value, matched, entry, now + ttl, id);
      }
    case OpReadyWake(cached, ready, now) =>
      FindRefreshed(v.hits, cached.identity, cached.body.matched, ready, now + Max(cached.expiresAt - now, 0), id);
    case OpRotate => FindUnregistered(v.hits, id);
    case OpClear => FindEmpty(id);
  }

  lemma FindEmpty(id: RouteIdentity)
    ensures Find<Route>([], id) == None
  {
  }

  /**
   An older entry for the same instance displaces a cached one, the `k`-th in
   line, exactly when that one has expired and the insertion's expiry budget
   reaches it: fewer than 64 answers are due before it.
   */
  lemma RollbackExactly(v: View, op: Op, k: nat)
    requires WellFormed(v) && op.OpInsertResolved? && v.capacity > 0
    requires k < |v.hits| && v.hits[k].identity == op.request && !NotOlder(v.hits[k].body.entry, op.incoming.entry)
    ensures
      Find(Step(v, op).view.hits, op.request) == Some(Slot(op.request, op.expiresAt, op.incoming)) <==>
      v.hits[k].expiresAt <= op.now && Rank(v.hits, k) < INSERT_EXPIRY_BUDGET
  {
    hide Tidy, Find, Installed, Without, Sweep, DistinctIdentities, Rank;
    var swept := ExpireLimited(v, op.now, INSERT_EXPIRY_BUDGET).view;
    ExpireWellFormed(v, op.now, INSERT_EXPIRY_BUDGET);
    TidyDistinct(v);
    FindAt(v.hits, k);
    SweptExactly(v.hits, op.now, INSERT_EXPIRY_BUDGET, k);
    SweepFinds(v.hits, op.now, INSERT_EXPIRY_BUDGET, op.request);
    FindWithout(swept.hits, op.request, op.request);
    InstalledLands(swept, op.request, op.incoming, op.expiresAt);
  }

  /** The run keeps `id` answered, unexpired at each insertion, and on one instance. */
  ghost predicate Steady(v: View, ops: seq<Op>, id: RouteIdentity, known: bool)
    decreases |ops|
  {
    var last := EntryAt(Run(v, ops).view, id);
    && last.Some?
    && (known ==> last.value.backendGeneration.Some?)
    && (ops != [] ==>
          var n := |ops| - 1;
          var before := Run(v, ops[..n]).view;
          && Steady(v, ops[..n], id, known)
          && Guarded(ops[n])
          && Unexpired(before, ops[n], id)
          && EntryAt(before, id).value.instanceId == last.value.instanceId)
  }

  lemma {:induction false} RunStaysWellFormed(v: View, ops: seq<Op>)
    requires WellFormed(v)
    ensures WellFormed(Run(v, ops).view)
    decreases |ops|
  {
    hide WellFormed, Step;
    if ops != [] {
      RunStaysWellFormed(v, ops[..|ops| - 1]);
      StepWellFormed(Run(v, ops[..|ops| - 1]).view, ops[|ops| - 1]);
    }
  }

  /**
   Along every steady run the instance generation never decreases, and neither
   does the backend generation while it is known throughout.
   */
  lemma {:induction false} GenerationsAscend(v: View, ops: seq<Op>, id: RouteIdentity, known: bool)
    requires WellFormed(v) && Steady(v, ops, id, known)
    ensures EntryAt(v, id).Some?
    ensures
      var first, last := EntryAt(v, id).value, EntryAt(Run(v, ops).view, id).value;
      && first.instanceId == last.instanceId
      && first.instanceGeneration <= last.instanceGeneration
      && (known ==> first.backendGeneration.Some? && first.backendGeneration.value <= last.backendGeneration.value)
    decreases |ops|
  {
    hide WellFormed, Step, EntryAt, Unexpired;
    if ops != [] {
      var n := |ops| - 1;
      GenerationsAscend(v, ops[..n], id, known);
      RunStaysWellFormed(v, ops[..n]);
      StepNoRollback(Run(v, ops[..n]).view, ops[n], id);
    }
  }

  /**
   Between two entries of one instance, a third can bridge a step back exactly
   when the first knows a backend generation above zero and the second does not:
   otherwise whatever may follow the second may follow the first.
   */
  lemma BridgesExactly(a: RouteEntry, m: RouteEntry)
    requires a.instanceId == m.instanceId && NotOlder(a, m)
    ensures
      (forall c: RouteEntry :: c.instanceId == m.instanceId && NotOlder(m, c) ==> NotOlder(a, c)) <==>
      a.backendGeneration in {None, Some(0)} || m.backendGeneration.Some?
  {
    if a.backendGeneration !in {None, Some(0)} && m.backendGeneration.None? {
      assert NotOlder(m, m.(backendGeneration := Some(0))) && !NotOlder(a, m.(backendGeneration := Some(0)));
    }
  }

  /** The last entry of the run knows a backend generation below `b`. */
  ghost predicate Regressed(v: View, ops: seq<Op>, id: RouteIdentity, b: nat) {
    var last := EntryAt(Run(v, ops).view, id);
    last.Some? && last.value.backendGeneration.Some? && last.value.backendGeneration.value < b
  }

  /** Some state on the way, the last one aside, answers `id` without knowing its backend generation. */
  ghost predicate PassesUnknown(v: View, ops: seq<Op>, id: RouteIdentity) {
    exists k :: 0 <= k < |ops| && UnknownAfter(v, ops, id, k)
  }

  ghost predicate UnknownAfter(v: View, ops: seq<Op>, id: RouteIdentity, k: nat)
    requires k <= |ops|
  {
    EntryAt(Run(v, ops[..k]).view, id).Some? && EntryAt(Run(v, ops[..k]).view, id).value.backendGeneration.None?
  }

  /** A steady run that ends below a generation it began with has passed an entry that knew none. */
  lemma {:induction false} RegressionPassesUnknown(v: View, ops: seq<Op>, id: RouteIdentity, b: nat)
    requires WellFormed(v) && Steady(v, ops, id, false)
    requires EntryAt(v, id).Some? && EntryAt(v, id).value.backendGeneration == Some(b)
    requires Regressed(v, ops, id, b)
    ensures PassesUnknown(v, ops, id)
    decreases |ops|
  {
    hide WellFormed, Step, EntryAt, Unexpired;
    if ops != [] {
      var n := |ops| - 1;
      RunStaysWellFormed(v, ops[..n]);
      StepNoRollback(Run(v, ops[..n]).view, ops[n], id);
      if !UnknownAfter(v, ops, id, n) {
        RegressionPassesUnknown(v, ops[..n], id, b);
        var k :| 0 <= k < n && UnknownAfter(v, ops[..n], id, k);
        assert ops[..n][..k] == ops[..k];
        assert UnknownAfter(v, ops, id, k);
      }
    }
  }

  /** The operation takes place at time `t`, if it has a time. */
  predicate ActsAt(op: Op, t: nat) {
    match op
    case OpInvalidateSubscription(_) => true
    case OpInvalidateRequest(_) => true
    case OpRotate => true
    case OpClear => true
    case _ => op.now == t
  }

  /** A finished wake installs an entry that knows generation zero, on whatever answer there is. */
  function Lowest(v: View, id: RouteIdentity, t: nat): Op
    requires Find(v.hits, id).Some?
  {
    var hit := Find(v.hits, id).value;
    OpReadyWake(hit, hit.body.entry.(backendGeneration := Some(0)), t)
  }

  /**
   A steady run that began with a known backend generation `b` can go on, at any
   time, to an entry that knows a lower one exactly when its present entry knows
   none, or already one below `b`, which by `RegressionPassesUnknown` takes an
   unknown entry on the way.
   */
  lemma RegressesExactly(v: View, ops: seq<Op>, id: RouteIdentity, b: nat, t: nat)
    requires WellFormed(v) && Steady(v, ops, id, false)
    requires EntryAt(v, id).Some? && EntryAt(v, id).value.backendGeneration == Some(b) && b > 0
    ensures
      var now := EntryAt(Run(v, ops).view, id).value.backendGeneration;
      (exists op :: ActsAt(op, t) && Steady(v, ops + [op], id, false) && Regressed(v, ops + [op], id, b)) <==>
      now.None? || now.value < b
  {
    hide WellFormed, Step, Unexpired, Find;
    var here := Run(v, ops).view;
    var now := EntryAt(here, id).value.backendGeneration;
    RunStaysWellFormed(v, ops);
    if now.None? || now.value < b {
      var op := if now.None? then Lowest(here, id, t) else Again(here, id, t);
      RunLast(v, ops, op);
      assert (ops + [op])[..|ops|] == ops;
      StaysPut(here, id, op, t);
      assert ActsAt(op, t) && Steady(v, ops + [op], id, false) && Regressed(v, ops + [op], id, b);
    } else {
      forall op | Steady(v, ops + [op], id, false) ensures !Regressed(v, ops + [op], id, b) {
        RunLast(v, ops, op);
        assert (ops + [op])[..|ops|] == ops;
        StepNoRollback(here, op, id);
      }
    }
  }

  /** The same entry once more. */
  function Again(v: View, id: RouteIdentity, t: nat): Op
    requires Find(v.hits, id).Some?
  {
    OpReadyWake(Find(v.hits, id).value, Find(v.hits, id).value.body.entry, t)
  }

  lemma StaysPut(v: View, id: RouteIdentity, op: Op, t: nat)
    requires Find(v.hits, id).Some?
    requires op == Again(v, id, t)
      || (op == Lowest(v, id, t) && Find(v.hits, id).value.body.entry.backendGeneration.None?)
    ensures EntryAt(Step(v, op).view, id) == Some(op.ready) && Unexpired(v, op, id)
  {
    hide Find, Refresh;
    var hit := Find(v.hits, id).value;
    FindRefreshed(v.hits, id, hit.body.matched, op.ready, Max(hit.expiresAt, t), id);
  }

  function Put(id: RouteIdentity, sub: SubscriptionId, entry: RouteEntry): Op {
    OpInsertResolved(id, Route(Some(sub), id, entry), 1, 0)
  }

  function Only(id: RouteIdentity, sub: SubscriptionId, entry: RouteEntry): View {
    View(1, [Slot(id, 1, Route(Some(sub), id, entry))], [])
  }

  /** Three insertions, each under an ID of its own: through an unknown backend generation, 5 is followed by 3. */
  lemma BackendGenerationMayRegress(id: RouteIdentity, entry: RouteEntry, a: SubscriptionId, b: SubscriptionId,
                                    c: SubscriptionId)
    requires a != b && b != c && a != c
    ensures
      var five := entry.(backendGeneration := Some(5));
      var unknown := entry.(backendGeneration := None);
      var three := entry.(backendGeneration := Some(3));
      && Run(Empty(1), [Put(id, a, five)]).view == Only(id, a, five)
      && Run(Empty(1), [Put(id, a, five), Put(id, b, unknown), Put(id, c, three)]).view == Only(id, c, three)
  {
    hide Step;
    var five := Put(id, a, entry.(backendGeneration := Some(5)));
    var unknown := Put(id, b, entry.(backendGeneration := None));
    var three := Put(id, c, entry.(backendGeneration := Some(3)));
    assert [] + [five] == [five];
    assert [five] + [unknown] == [five, unknown];
    assert [five, unknown] + [three] == [five, unknown, three];
    RunLast(Empty(1), [], five);
    RunLast(Empty(1), [five], unknown);
    RunLast(Empty(1), [five, unknown], three);
    ReplaceAlone(Empty(1), five);
    ReplaceAlone(Only(id, a, entry.(backendGeneration := Some(5))), unknown);
    ReplaceAlone(Only(id, b, entry.(backendGeneration := None)), three);
  }

  lemma RunLast(v: View, ops: seq<Op>, op: Op)
    ensures Run(v, ops + [op]).view == Step(Run(v, ops).view, op).view
  {
    assert (ops + [op])[..|ops|] == ops;
  }

  /** Insertion into a cache that answers at most the inserted identity. */
  lemma ReplaceAlone(v: View, op: Op)
    requires op.OpInsertResolved? && v.capacity == 1 && v.misses == []
    requires |v.hits| <= 1 && forall s :: s in v.hits ==>
      s.identity == op.request && op.now < s.expiresAt && NotOlder(s.body.entry, op.incoming.entry)
    ensures Step(v, op).view == View(1, [Slot(op.request, op.expiresAt, op.incoming)], [])
  {
    assert Sweep(v.hits, op.now, INSERT_EXPIRY_BUDGET) == Swept(v.hits, []);
    assert Sweep(v.misses, op.now, INSERT_EXPIRY_BUDGET) == Swept([], []);
    assert Without(v.hits, op.request) == [] by {
      if v.hits != [] {
        assert v.hits[0] in v.hits && v.hits[1..] == [];
      }
    }
    assert Without(v.misses, op.request) == [];
    assert Joined(v.hits, op.request, op.incoming, op.expiresAt) == [Slot(op.request, op.expiresAt, op.incoming)];
  }
}
