/** Every subscription ID the cache is given is accounted for. */
module CacheConservation {
  import opened Prelude
  import opened CacheSpec
  import opened CacheLines
  import opened CacheExpiry

  ghost function Live(v: View): multiset<SubscriptionId> { multiset(Ids(v.hits)) }

  ghost function Given(incoming: Route): multiset<SubscriptionId> { multiset(OptSeq(incoming.subscription)) }

  lemma IdsRemoveAt(line: Line<Route>, k: nat)
    requires k < |line|
    ensures multiset(Ids(line)) == multiset(Ids(RemoveAt(line, k))) + multiset(OptSeq(line[k].body.subscription))
  {
    hide Ids;
    var a, b := line[..k], line[k + 1..];
    SplitAt(line, k);
    IdsAround(a, line[k], b);
    IdsAppend(a, b);
    MiddleOut(Ids(a), OptSeq(line[k].body.subscription), Ids(b));
  }

  lemma IdsAround(a: Line<Route>, s: Slot<Route>, b: Line<Route>)
    ensures Ids(a + ([s] + b)) == Ids(a) + (OptSeq(s.body.subscription) + Ids(b))
  {
    hide Ids;
    IdsAppend(a, [s] + b);
    IdsAppend([s], b);
    IdsOne(s);
  }

  lemma MiddleOut(a: seq<SubscriptionId>, middle: seq<SubscriptionId>, b: seq<SubscriptionId>)
    ensures multiset(a + (middle + b)) == multiset(a + b) + multiset(middle)
  {
  }

  lemma {:induction false} SweepConserves(line: Line<Route>, now: nat, limit: nat)
    ensures
      var s := Sweep(line, now, limit);
      multiset(Ids(line)) == multiset(Ids(s.kept)) + multiset(Ids(s.gone))
    decreases limit
  {
    hide Ids, RemoveAt, Sweep;
    if limit == 0 || !SweepsOne(line, now) {
      SweepNone(line, now, limit);
      IdsNone();
    } else {
      var k := Earliest(line);
      var rest := Sweep(RemoveAt(line, k), now, limit - 1);
      SweepOne(line, now, limit);
      SweepConserves(RemoveAt(line, k), now, limit - 1);
      IdsRemoveAt(line, k);
      IdsOne(line[k]);
      IdsAppend([line[k]], rest.gone);
      MoveOver(multiset(Ids(rest.kept)), multiset(Ids(rest.gone)), OptSeq(line[k].body.subscription), Ids(rest.gone));
    }
  }

  lemma MoveOver(kept: multiset<SubscriptionId>, gone: multiset<SubscriptionId>, one: seq<SubscriptionId>,
                 others: seq<SubscriptionId>)
    requires gone == multiset(others)
    ensures (kept + gone) + multiset(one) == kept + multiset(one + others)
  {
  }

  lemma WithoutConserves(v: View, id: RouteIdentity)
    requires Tidy(v)
    ensures multiset(Ids(v.hits)) == multiset(Ids(Without(v.hits, id))) + multiset(HeldId(v, id))
  {
    var k := WithoutCases(v.hits, id);
    if k < |v.hits| {
      IdsRemoveAt(v.hits, k);
    }
  }

  /** The other answer that an incoming ID already backs is the only one it displaces. */
  lemma UnaliasedConserves(v: View, subscription: Option<SubscriptionId>)
    requires Tidy(v)
    ensures
      multiset(Ids(v.hits)) == multiset(Ids(Unaliased(v.hits, subscription))) +
        (if subscription.Some? && subscription.value in Ids(v.hits) then multiset{subscription.value} else multiset{})
  {
    if subscription.Some? && Holder(v.hits, subscription.value).Some? {
      var id := Holder(v.hits, subscription.value).value;
      var s :| s in v.hits && s.body.subscription == subscription && s.identity == id;
      var i :| 0 <= i < |v.hits| && v.hits[i] == s;
      var k := WithoutCases(v.hits, id);
      assert i == k;
      IdsRemoveAt(v.hits, k);
    }
  }

  lemma ExpireConserves(v: View, now: nat, limit: nat)
    ensures
      var out := ExpireLimited(v, now, limit);
      Live(v) == Live(out.view) + multiset(out.released)
  {
    SweepConserves(v.hits, now, limit);
  }

  /**
   Installing an answer loses track of an ID exactly when the incoming ID is
   already live: its second registration is then not counted twice.
   */
  lemma InstallConserves(v: View, request: RouteIdentity, incoming: Route, expiresAt: nat)
    requires Tidy(v)
    ensures
      var out := Installed(v, request, incoming, expiresAt);
      var aliased := incoming.subscription.Some? && incoming.subscription.value in Ids(v.hits);
      Live(v) + Given(incoming) == Live(out.view) + multiset(out.released)
        + (if aliased then Given(incoming) else multiset{})
  {
    hide Tidy, Without, Ids, Holder, Unaliased, Find;
    var w := v.(hits := Without(v.hits, request));
    var alone := Unaliased(w.hits, incoming.subscription);
    var full := Joined(v.hits, request, incoming, expiresAt);
    var over := Over(full, v.capacity);
    WithoutConserves(v, request);
    WithoutHitTidy(v, request);
    UnaliasedConserves(w, incoming.subscription);
    JoinSplitIds(alone, Slot(request, expiresAt, incoming), over);
    var held, alias := multiset(HeldId(v, request)), AliasIn(w, incoming);
    Balance(Live(v), Live(w), held, multiset(Ids(alone)), alias, Given(incoming),
            multiset(Ids(full[..over])), multiset(Ids(full[over..])));
    DisplacedOrShared(v, request, incoming);
    var out := Installed(v, request, incoming, expiresAt);
    assert multiset(out.released) == multiset(Displaced(Find(v.hits, request), incoming)) + multiset(Ids(full[..over]));
  }

  /** The incoming ID, if another answer already holds it. */
  ghost function AliasIn(v: View, incoming: Route): multiset<SubscriptionId> {
    if incoming.subscription.Some? && incoming.subscription.value in Ids(v.hits)
    then multiset{incoming.subscription.value} else multiset{}
  }

  lemma Halves<T>(s: seq<T>, k: nat)
    requires k <= |s|
    ensures s == s[..k] + s[k..]
  {
  }

  lemma JoinSplitIds(line: Line<Route>, s: Slot<Route>, over: nat)
    requires over <= |line| + 1
    ensures
      var full := line + [s];
      multiset(Ids(line)) + multiset(OptSeq(s.body.subscription)) == multiset(Ids(full[..over]))
        + multiset(Ids(full[over..]))
  {
    hide Ids;
    var full := line + [s];
    IdsGrow(line, s);
    Halves(full, over);
    IdsAppend(full[..over], full[over..]);
  }

  /** What the identity and an alias held is what is reported, unless it is the incoming ID itself. */
  lemma DisplacedOrShared(v: View, request: RouteIdentity, incoming: Route)
    requires Tidy(v)
    ensures
      var w := v.(hits := Without(v.hits, request));
      multiset(HeldId(v, request)) + AliasIn(w, incoming) ==
        multiset(Displaced(Find(v.hits, request), incoming)) + AliasIn(v, incoming)
  {
    hide Tidy, Without, Ids;
    if incoming.subscription.Some? {
      HeldOnce(v, request, incoming.subscription.value);
    }
  }

  lemma Balance(live: multiset<SubscriptionId>, kept: multiset<SubscriptionId>, held: multiset<SubscriptionId>,
                alone: multiset<SubscriptionId>, alias: multiset<SubscriptionId>, given: multiset<SubscriptionId>,
                evicted: multiset<SubscriptionId>, after: multiset<SubscriptionId>)
    requires live == kept + held && kept == alone + alias && alone + given == evicted + after
    ensures live + given == after + evicted + (held + alias)
  {
    forall id ensures (live + given)[id] == (after + evicted + (held + alias))[id] {
      assert (alone + given)[id] == (evicted + after)[id];
    }
  }

  /** A live ID is held by the queried identity or by exactly one other. */
  lemma HeldOnce(v: View, request: RouteIdentity, id: SubscriptionId)
    requires Tidy(v)
    ensures id in Ids(v.hits) <==> HeldId(v, request) == [id] || id in Ids(Without(v.hits, request))
    ensures HeldId(v, request) == [id] ==> id !in Ids(Without(v.hits, request))
  {
    var k := WithoutCases(v.hits, request);
    if k < |v.hits| {
      IdsRemoveAt(v.hits, k);
      IdsOnce(v.hits, id);
      assert id in Ids(v.hits) <==> id in multiset(Ids(v.hits));
      assert id in Ids(RemoveAt(v.hits, k)) <==> id in multiset(Ids(RemoveAt(v.hits, k)));
    }
  }

  lemma {:induction false} IdsOnce(line: Line<Route>, id: SubscriptionId)
    requires DistinctSubscriptions(line)
    ensures multiset(Ids(line))[id] <= 1
  {
    if line != [] {
      IdsOnce(line[1..], id);
      if line[0].body.subscription == Some(id) {
        assert id !in Ids(line[1..]);
      }
    }
  }

  /** Conservation of IDs through one insertion, by what its expiry pass left. */
  lemma InsertBalances(v: View, request: RouteIdentity, incoming: Route, expiresAt: nat, now: nat)
    requires WellFormed(v)
    ensures
      var swept := ExpireLimited(v, now, INSERT_EXPIRY_BUDGET).view;
      var out := InsertResolved(v, request, incoming, expiresAt, now);
      Live(v) + Given(incoming) == Live(out.view) + multiset(out.released)
      <==>
      (|| RefusesIncoming(swept, request, incoming)
       || incoming.subscription.None?
       || incoming.subscription.value !in Ids(swept.hits))
    ensures
      var swept := ExpireLimited(v, now, INSERT_EXPIRY_BUDGET).view;
      var out := InsertResolved(v, request, incoming, expiresAt, now);
      var lost := if RefusesIncoming(swept, request, incoming) then multiset{} else AliasIn(swept, incoming);
      Live(v) + Given(incoming) == Live(out.view) + multiset(out.released) + lost
  {
    hide Tidy, Without, Ids, Sweep, Installed, Find, Refused;
    ExpireConserves(v, now, INSERT_EXPIRY_BUDGET);
    ExpireWellFormed(v, now, INSERT_EXPIRY_BUDGET);
    var swept := ExpireLimited(v, now, INSERT_EXPIRY_BUDGET).view;
    if RefusesIncoming(swept, request, incoming) {
      RefuseConserves(swept, request, incoming);
      var rest := Refused(swept, Find(swept.hits, request).value, incoming);
      Through(v, swept, rest.view, Given(incoming), ExpireLimited(v, now, INSERT_EXPIRY_BUDGET).released, rest.released,
        multiset{});
    } else {
      InstallConserves(swept, request, incoming, expiresAt);
      var rest := Installed(swept, request, incoming, expiresAt);
      Through(v, swept, rest.view, Given(incoming), ExpireLimited(v, now, INSERT_EXPIRY_BUDGET).released, rest.released,
              AliasIn(swept, incoming));
    }
  }

  /** The answer survives the expiry pass of an insertion. */
  predicate Spared(v: View, now: nat, k: nat)
    requires k < |v.hits|
  {
    Outlives(v.hits, now, INSERT_EXPIRY_BUDGET, k)
  }

  /** A surviving answer for the request is newer than the incoming one. */
  ghost predicate MeetsNewer(v: View, request: RouteIdentity, incoming: Route, now: nat) {
    exists k :: 0 <= k < |v.hits| && v.hits[k].identity == request
      && StaleRouteEntry(v.hits[k].body.entry, incoming.entry).Some? && Spared(v, now, k)
  }

  /** A surviving answer holds the ID. */
  ghost predicate IdTaken(v: View, id: SubscriptionId, now: nat) {
    exists k :: 0 <= k < |v.hits| && v.hits[k].body.subscription == Some(id) && Spared(v, now, k)
  }

  lemma SurvivorFound(v: View, now: nat, k: nat)
    requires WellFormed(v) && k < |v.hits|
    ensures
      var swept := ExpireLimited(v, now, INSERT_EXPIRY_BUDGET).view;
      Find(swept.hits, v.hits[k].identity) == if Spared(v, now, k) then Some(v.hits[k]) else None
  {
    hide Find, Sweep, Rank, DistinctIdentities;
    TidyDistinct(v);
    FindAt(v.hits, k);
    SweptExactly(v.hits, now, INSERT_EXPIRY_BUDGET, k);
    SweepFinds(v.hits, now, INSERT_EXPIRY_BUDGET, v.hits[k].identity);
  }

  /** What the pass left was there before. */
  lemma SurvivorKnown(v: View, now: nat, s: Slot<Route>) returns (k: nat)
    requires WellFormed(v) && s in ExpireLimited(v, now, INSERT_EXPIRY_BUDGET).view.hits
    ensures k < |v.hits| && v.hits[k] == s && Spared(v, now, k)
  {
    hide Find, Sweep, Rank, DistinctIdentities, Tidy;
    var swept := ExpireLimited(v, now, INSERT_EXPIRY_BUDGET).view;
    ExpireWellFormed(v, now, INSERT_EXPIRY_BUDGET);
    TidyDistinct(v);
    TidyDistinct(swept);
    var i :| 0 <= i < |swept.hits| && swept.hits[i] == s;
    FindAt(swept.hits, i);
    SweepFinds(v.hits, now, INSERT_EXPIRY_BUDGET, s.identity);
    k :| 0 <= k < |v.hits| && v.hits[k] == s;
    SurvivorFound(v, now, k);
  }

  lemma RefusedExactly(v: View, request: RouteIdentity, incoming: Route, now: nat)
    requires WellFormed(v)
    ensures RefusesIncoming(ExpireLimited(v, now, INSERT_EXPIRY_BUDGET).view, request, incoming) <==>
      MeetsNewer(v, request, incoming, now)
  {
    hide Find, Spared, ExpireLimited, StaleRouteEntry, WellFormed;
    var swept := ExpireLimited(v, now, INSERT_EXPIRY_BUDGET).view;
    if RefusesIncoming(swept, request, incoming) {
      var k := SurvivorKnown(v, now, Find(swept.hits, request).value);
    }
    if MeetsNewer(v, request, incoming, now) {
      var k :| 0 <= k < |v.hits| && v.hits[k].identity == request
        && StaleRouteEntry(v.hits[k].body.entry, incoming.entry).Some? && Spared(v, now, k);
      SurvivorFound(v, now, k);
    }
  }

  lemma TakenExactly(v: View, id: SubscriptionId, now: nat)
    requires WellFormed(v)
    ensures id in Ids(ExpireLimited(v, now, INSERT_EXPIRY_BUDGET).view.hits) <==> IdTaken(v, id, now)
  {
    hide Ids, Find, Spared, ExpireLimited, WellFormed;
    var swept := ExpireLimited(v, now, INSERT_EXPIRY_BUDGET).view;
    if id in Ids(swept.hits) {
      var s :| s in swept.hits && s.body.subscription == Some(id);
      var k := SurvivorKnown(v, now, s);
    }
    if IdTaken(v, id, now) {
      var k :| 0 <= k < |v.hits| && v.hits[k].body.subscription == Some(id) && Spared(v, now, k);
      SurvivorFound(v, now, k);
    }
  }

  /**
   Conservation of IDs through one insertion: what was live and what arrived is
   what is live and what is reported, if and only if it is refused by a newer
   answer or no answer that survives its expiry pass holds the incoming ID.
   Otherwise the balance is off by exactly that ID.
   */
  lemma InsertConserves(v: View, request: RouteIdentity, incoming: Route, expiresAt: nat, now: nat)
    requires WellFormed(v)
    ensures
      var out := InsertResolved(v, request, incoming, expiresAt, now);
      Live(v) + Given(incoming) == Live(out.view) + multiset(out.released)
      <==>
      (|| MeetsNewer(v, request, incoming, now)
       || incoming.subscription.None?
       || !IdTaken(v, incoming.subscription.value, now))
    ensures
      var out := InsertResolved(v, request, incoming, expiresAt, now);
      !MeetsNewer(v, request, incoming, now) && incoming.subscription.Some?
        && IdTaken(v, incoming.subscription.value, now) ==>
        Live(v) + Given(incoming) == Live(out.view) + multiset(out.released) + multiset{incoming.subscription.value}
  {
    hide Live, Given, InsertResolved, RefusesIncoming, MeetsNewer, IdTaken, Ids, ExpireLimited, WellFormed;
    InsertBalances(v, request, incoming, expiresAt, now);
    RefusedExactly(v, request, incoming, now);
    if incoming.subscription.Some? {
      TakenExactly(v, incoming.subscription.value, now);
    }
  }

  /** A route inserted under an ID, good until time 1. */
  function Insertion(request: RouteIdentity, id: SubscriptionId, entry: RouteEntry): Op {
    OpInsertResolved(request, Route(Some(id), request, entry), 1, 0)
  }

  /** The balance fails: two identities inserted under one ID leave that ID live once and reported never. */
  lemma SharedIdIsLost(a: RouteIdentity, b: RouteIdentity, id: SubscriptionId, entry: RouteEntry)
    requires a != b
    ensures
      var ops := [Insertion(a, id, entry), Insertion(b, id, entry)];
      var out := Run(Empty(2), ops);
      && out.released == [] && Live(out.view) == multiset{id}
      && GivenIn(ops) == Live(out.view) + multiset(out.released) + multiset{id}
  {
    hide Step;
    var ops := [Insertion(a, id, entry), Insertion(b, id, entry)];
    var one, two :=
      View(2, [Slot(a, 1, Route(Some(id), a, entry))], []), View(2, [Slot(b, 1, Route(Some(id), b, entry))], []);
    FirstIn(a, id, entry);
    SecondIn(a, b, id, entry);
    assert ops[..1] == [ops[0]] && ops[..1][..0] == [] && ops[..2] == ops;
    assert Run(Empty(2), []) == Outcome(Empty(2), []);
    assert Run(Empty(2), ops[..1]) == Outcome(one, []);
    assert Run(Empty(2), ops) == Outcome(two, []);
    IdsOne(two.hits[0]);
    assert GivenIn(ops[..1]) == multiset{id} && GivenIn(ops) == multiset{id, id};
  }

  lemma FirstIn(a: RouteIdentity, id: SubscriptionId, entry: RouteEntry)
    ensures Step(Empty(2), Insertion(a, id, entry)) == Outcome(View(2, [Slot(a, 1, Route(Some(id), a, entry))], []), [])
  {
    IdsNone();
    SweepNone<Route>([], 0, INSERT_EXPIRY_BUDGET);
    SweepNone<Nothing>([], 0, INSERT_EXPIRY_BUDGET);
    assert Joined([], a, Route(Some(id), a, entry), 1) == [Slot(a, 1, Route(Some(id), a, entry))];
  }

  lemma SecondIn(a: RouteIdentity, b: RouteIdentity, id: SubscriptionId, entry: RouteEntry)
    requires a != b
    ensures
      var one := View(2, [Slot(a, 1, Route(Some(id), a, entry))], []);
      Step(one, Insertion(b, id, entry)) == Outcome(View(2, [Slot(b, 1, Route(Some(id), b, entry))], []), [])
  {
    var hits := [Slot(a, 1, Route(Some(id), a, entry))];
    IdsNone();
    SweepNone(hits, 0, INSERT_EXPIRY_BUDGET);
    SweepNone<Nothing>([], 0, INSERT_EXPIRY_BUDGET);
    assert hits[1..] == [];
    assert Without(hits, b) == hits && Holder(hits, id) == Some(a) && Without(hits, a) == [];
    assert Joined(hits, b, Route(Some(id), b, entry), 1) == [Slot(b, 1, Route(Some(id), b, entry))];
  }

  /** Two accounts in sequence balance exactly when nothing went missing in the second. */
  lemma Through(before: View, middle: View, after: View, given: multiset<SubscriptionId>,
                first: seq<SubscriptionId>, second: seq<SubscriptionId>, missing: multiset<SubscriptionId>)
    requires Live(before) == Live(middle) + multiset(first)
    requires Live(middle) + given == Live(after) + multiset(second) + missing
    ensures Live(before) + given == Live(after) + multiset(first + second) <==> missing == multiset{}
    ensures Live(before) + given == Live(after) + multiset(first + second) + missing
  {
    hide Live;
    var total := Live(after) + multiset(first + second);
    forall id ensures (Live(before) + given)[id] == total[id] + missing[id] {
      assert (Live(middle) + given)[id] == (Live(after) + multiset(second) + missing)[id];
      assert multiset(first + second)[id] == multiset(first)[id] + multiset(second)[id];
    }
    if Live(before) + given == total {
      forall id ensures missing[id] == 0 {
        assert (Live(before) + given)[id] == total[id];
      }
      assert missing == multiset{};
    }
  }

  lemma RefuseConserves(v: View, request: RouteIdentity, incoming: Route)
    requires Tidy(v) && RefusesIncoming(v, request, incoming)
    ensures
      var out := Refused(v, Find(v.hits, request).value, incoming);
      Live(v) + Given(incoming) == Live(out.view) + multiset(out.released)
  {
    WithoutConserves(v, request);
  }

  lemma NegativeConserves(v: View, request: RouteIdentity, ttl: nat, now: nat)
    requires WellFormed(v)
    ensures
      var out := InsertNegative(v, request, ttl, now);
      Live(v) == Live(out.view) + multiset(out.released)
  {
    hide Tidy, Without, Ids, Sweep, Find;
    ExpireConserves(v, now, INSERT_EXPIRY_BUDGET);
    ExpireWellFormed(v, now, INSERT_EXPIRY_BUDGET);
    WithoutConserves(ExpireLimited(v, now, INSERT_EXPIRY_BUDGET).view, request);
  }

  /** A fresh ID: live and reported IDs are disjoint and none is reported twice. */
  lemma InsertReleasesOnce(v: View, request: RouteIdentity, incoming: Route, expiresAt: nat, now: nat)
    requires WellFormed(v)
    requires incoming.subscription.Some? ==> incoming.subscription.value !in Ids(v.hits)
    ensures
      var out := InsertResolved(v, request, incoming, expiresAt, now);
      && Live(v) + Given(incoming) == Live(out.view) + multiset(out.released)
      && Distinct(out.released)
      && (forall id :: id in out.released ==> id !in Ids(out.view.hits))
  {
    hide Tidy, Without, Ids, Sweep, Installed, Find, Refused, InsertResolved;
    var out := InsertResolved(v, request, incoming, expiresAt, now);
    InsertBalances(v, request, incoming, expiresAt, now);
    FreshAfterExpiry(v, incoming.subscription, now);
    forall id | id in out.released
      ensures multiset(out.released)[id] <= 1 && id !in Ids(out.view.hits)
    {
      OnceBefore(v, incoming, id);
      assert (Live(out.view) + multiset(out.released))[id] <= 1;
    }
    OnceDistinct(out.released);
  }

  lemma OnceBefore(v: View, incoming: Route, id: SubscriptionId)
    requires WellFormed(v)
    requires incoming.subscription.Some? ==> incoming.subscription.value !in Ids(v.hits)
    ensures (Live(v) + Given(incoming))[id] <= 1
  {
    IdsOnce(v.hits, id);
  }

  lemma FreshAfterExpiry(v: View, subscription: Option<SubscriptionId>, now: nat)
    requires subscription.Some? ==> subscription.value !in Ids(v.hits)
    ensures subscription.Some? ==> subscription.value !in Ids(ExpireLimited(v, now, INSERT_EXPIRY_BUDGET).view.hits)
  {
    hide Ids, Sweep;
    ExpireConserves(v, now, INSERT_EXPIRY_BUDGET);
    var after := ExpireLimited(v, now, INSERT_EXPIRY_BUDGET).view;
    if subscription.Some? {
      assert subscription.value in Ids(after.hits) <==> Live(after)[subscription.value] > 0;
      assert subscription.value in Ids(v.hits) <==> Live(v)[subscription.value] > 0;
    }
  }

  // ---- whole runs --------------------------------------------------------

  ghost function GivenBy(op: Op): multiset<SubscriptionId> {
    if op.OpInsertResolved? then Given(op.incoming) else multiset{}
  }

  /** IDs that end because the control plane or the stream ended them. */
  ghost function EndedBy(v: View, op: Op): multiset<SubscriptionId> {
    match op
    case OpInvalidateSubscription(id) => if id in Ids(v.hits) then multiset{id} else multiset{}
    case OpRotate => Live(v)
    case OpClear => Live(v)
    case _ => multiset{}
  }

  /** No answer arrives under an ID that is already live. */
  ghost predicate Fresh(v: View, op: Op) {
    op.OpInsertResolved? && op.incoming.subscription.Some? ==> op.incoming.subscription.value !in Ids(v.hits)
  }

  ghost predicate FreshRun(v: View, ops: seq<Op>)
    decreases |ops|
  {
    ops == [] || (FreshRun(v, ops[..|ops| - 1]) && Fresh(Run(v, ops[..|ops| - 1]).view, ops[|ops| - 1]))
  }

  ghost function GivenIn(ops: seq<Op>): multiset<SubscriptionId> {
    if ops == [] then multiset{} else GivenIn(ops[..|ops| - 1]) + GivenBy(ops[|ops| - 1])
  }

  ghost function EndedIn(v: View, ops: seq<Op>): multiset<SubscriptionId>
    decreases |ops|
  {
    if ops == [] then multiset{}
    else EndedIn(v, ops[..|ops| - 1]) + EndedBy(Run(v, ops[..|ops| - 1]).view, ops[|ops| - 1])
  }

  lemma TidyOf(v: View)
    requires WellFormed(v)
    ensures Tidy(v)
  {
  }

  lemma FreshConserves(v: View, request: RouteIdentity, incoming: Route, expiresAt: nat, now: nat)
    requires WellFormed(v)
    requires incoming.subscription.Some? ==> incoming.subscription.value !in Ids(v.hits)
    ensures
      var out := InsertResolved(v, request, incoming, expiresAt, now);
      Live(v) + Given(incoming) == Live(out.view) + multiset(out.released)
  {
    hide WellFormed, Ids, InsertResolved, Live, Given;
    InsertReleasesOnce(v, request, incoming, expiresAt, now);
  }

  lemma StepConserves(v: View, op: Op)
    requires WellFormed(v) && Fresh(v, op)
    ensures
      var out := Step(v, op);
      Live(v) + GivenBy(op) == Live(out.view) + multiset(out.released) + EndedBy(v, op)
  {
    hide WellFormed, Without, Ids, Sweep, Find, InsertResolved;
    hide InsertNegative, ExpireLimited, Refresh, Unregistered, Unaliased;
    TidyOf(v);
    match op
    case OpInsertResolved(request, incoming, expiresAt, now) => FreshConserves(v, request, incoming, expiresAt, now);
    case OpInsertNegative(request, ttl, now) => NegativeConserves(v, request, ttl, now);
    case OpExpire(now, limit) => ExpireConserves(v, now, limit);
    case OpInvalidateSubscription(id) => UnaliasedConserves(v, Some(id));
    case OpInvalidateRequest(request) => WithoutConserves(v, request);
    case OpRotate => UnregisteredIds(v.hits);
    case OpClear => IdsNone();
    case _ => RefreshStepIds(v, op);
  }

  lemma RefreshStepIds(v: View, op: Op)
    requires op.OpReplace? || op.OpRefresh? || op.OpUpdate? || op.OpReadyWake?
    ensures Ids(Step(v, op).view.hits) == Ids(v.hits) && Step(v, op).released == []
  {
    hide Ids, Refresh, Find, Holder, StaleRouteEntry;
    match op
    case OpReplace(id, matched, entry, ttl, now) =>
      if Holder(v.hits, id).Some? { RefreshIds(v.hits, Holder(v.hits, id).value, matched, entry, now + ttl); }
    case OpRefresh(request, matched, entry, ttl, now) => RefreshIds(v.hits, request, matched, entry, now + ttl);
    case OpUpdate(id, matched, entry, ttl, now) =>
      if Holder(v.hits, id).Some? { RefreshIds(v.hits, Holder(v.hits, id).value, matched, entry, now + ttl); }
    case OpReadyWake(cached, ready, now) =>
      RefreshIds(v.hits, cached.identity, cached.body.matched, ready, now + Max(cached.expiresAt - now, 0));
  }

  lemma {:induction false} SameIds(a: Line<Route>, b: Line<Route>)
    requires |a| == |b| && forall i :: 0 <= i < |a| ==> a[i].body.subscription == b[i].body.subscription
    ensures Ids(a) == Ids(b)
  {
    if a != [] {
      SameIds(a[1..], b[1..]);
    }
  }

  lemma RefreshIds(line: Line<Route>, id: RouteIdentity, matched: RouteIdentity, entry: RouteEntry, expiresAt: nat)
    ensures Ids(Refresh(line, id, matched, entry, expiresAt)) == Ids(line)
  {
    SameIds(Refresh(line, id, matched, entry, expiresAt), line);
  }

  lemma UnregisteredIds(line: Line<Route>)
    ensures Ids(Unregistered(line)) == []
  {
    var ids := Ids(Unregistered(line));
    assert forall id :: id in ids <==> id in multiset(ids);
    assert |multiset(ids)| == |ids|;
  }

  /**
   In every run from an empty cache whose answers arrive under fresh IDs, each
   ID given is live, reported for release, or ended from outside: exactly one
   of these for each time it was given.
   */
  lemma {:induction false} RunConserves(capacity: nat, ops: seq<Op>)
    requires FreshRun(Empty(capacity), ops)
    ensures
      var out := Run(Empty(capacity), ops);
      GivenIn(ops) == Live(out.view) + multiset(out.released) + EndedIn(Empty(capacity), ops)
    decreases |ops|
  {
    hide Ids, Step, WellFormed;
    if ops == [] {
      IdsNone();
    } else {
      var n := |ops| - 1;
      RunConserves(capacity, ops[..n]);
      RunWellFormed(capacity, ops[..n]);
      var before := Run(Empty(capacity), ops[..n]);
      var last := Step(before.view, ops[n]);
      StepConserves(before.view, ops[n]);
      Carry(GivenIn(ops[..n]), Live(before.view), multiset(before.released), EndedIn(Empty(capacity), ops[..n]),
            GivenBy(ops[n]), Live(last.view), multiset(last.released), EndedBy(before.view, ops[n]));
      assert multiset(before.released + last.released) == multiset(before.released) + multiset(last.released);
    }
  }

  lemma Carry(given: multiset<SubscriptionId>, live: multiset<SubscriptionId>, released: multiset<SubscriptionId>,
              ended: multiset<SubscriptionId>, given': multiset<SubscriptionId>, live': multiset<SubscriptionId>,
              released': multiset<SubscriptionId>, ended': multiset<SubscriptionId>)
    requires given == live + released + ended && live + given' == live' + released' + ended'
    ensures given + given' == live' + (released + released') + (ended + ended')
  {
    forall id ensures (given + given')[id] == (live' + (released + released') + (ended + ended'))[id] {
      assert (live + given')[id] == (live' + released' + ended')[id];
    }
  }
}
