/**
 The frontline route cache without its indexes: two bounded FIFO lines of
 answers with deadlines. `RouteCache` refines these functions; the laws about
 the cache are proved on them.
 */
module CacheSpec {
  import opened Prelude

  /** A queried identity; the cache only ever compares whole identities. */
  datatype RouteIdentity = RouteIdentity(key: string)

  datatype SubscriptionId = SubscriptionId(value: string, session: Option<nat>)

  datatype RouteEntry = RouteEntry(
    routeBinding: string,
    instanceId: string,
    instanceGeneration: nat,
    backend: Option<string>,
    backendGeneration: Option<nat>)

  /** What a positive answer says; `subscription` is `None` once its stream ended. */
  datatype Route = Route(subscription: Option<SubscriptionId>, matched: RouteIdentity, entry: RouteEntry)

  /** A negative answer says nothing beyond its identity and deadline. */
  datatype Nothing = Nothing

  datatype Slot<+B> = Slot(identity: RouteIdentity, expiresAt: nat, body: B)

  /** Answers in insertion order, oldest first. */
  type Line<+B> = seq<Slot<B>>

  datatype View = View(capacity: nat, hits: Line<Route>, misses: Line<Nothing>)

  datatype Lookup = Positive(hit: Slot<Route>) | Negative(miss: Slot<Nothing>) | Expired | Absent

  /** How many expired answers an insertion clears on its way. */
  const INSERT_EXPIRY_BUDGET: nat := 64

  const USIZE_MAX: nat := 0xFFFF_FFFF_FFFF_FFFF

  // ---- lines -------------------------------------------------------------

  ghost predicate DistinctIdentities<B>(line: Line<B>) {
    forall i, j :: 0 <= i < j < |line| ==> line[i].identity != line[j].identity
  }

  function Find<B>(line: Line<B>, id: RouteIdentity): (r: Option<Slot<B>>)
    ensures r.Some? ==> r.value in line && r.value.identity == id
    ensures r.None? ==> forall s :: s in line ==> s.identity != id
  {
    if line == [] then None
    else if line[0].identity == id then Some(line[0])
    else Find(line[1..], id)
  }

  function Without<B>(line: Line<B>, id: RouteIdentity): (r: Line<B>)
    ensures |r| <= |line|
  {
    if line == [] then []
    else (if line[0].identity == id then [] else [line[0]]) + Without(line[1..], id)
  }

  /** The first of the slots with the least deadline. */
  function Earliest<B>(line: Line<B>): (k: nat)
    requires line != []
    ensures k < |line|
    ensures forall i :: 0 <= i < |line| ==> line[k].expiresAt <= line[i].expiresAt
    ensures forall i :: 0 <= i < k ==> line[k].expiresAt < line[i].expiresAt
  {
    if |line| == 1 then 0
    else
      var k := Earliest(line[1..]) + 1;
      if line[0].expiresAt <= line[k].expiresAt then 0 else k
  }

  function RemoveAt<T>(s: seq<T>, k: nat): (r: seq<T>)
    requires k < |s|
    ensures |r| == |s| - 1
  {
    s[..k] + s[k + 1..]
  }

  datatype Swept<+B> = Swept(kept: Line<B>, gone: Line<B>)

  /** Drop at most `limit` slots that are due at `now`, by (deadline, insertion). */
  function Sweep<B>(line: Line<B>, now: nat, limit: nat): (r: Swept<B>)
    ensures |r.gone| <= limit
    ensures |r.kept| + |r.gone| == |line|
    decreases limit
  {
    if limit == 0 || line == [] || line[Earliest(line)].expiresAt > now then Swept(line, [])
    else
      var k := Earliest(line);
      var rest := Sweep(RemoveAt(line, k), now, limit - 1);
      Swept(rest.kept, [line[k]] + rest.gone)
  }

  /** The identity whose answer is backed by `id`. */
  function Holder(line: Line<Route>, id: SubscriptionId): (r: Option<RouteIdentity>)
    ensures r.None? <==> forall s :: s in line ==> s.body.subscription != Some(id)
    ensures r.Some? ==> exists s :: s in line && s.body.subscription == Some(id) && s.identity == r.value
  {
    if line == [] then None
    else if line[0].body.subscription == Some(id) then Some(line[0].identity)
    else Holder(line[1..], id)
  }

  /** The IDs a run of answers holds, in order. */
  function Ids(line: Line<Route>): (r: seq<SubscriptionId>)
    ensures forall id :: id in r <==> exists s :: s in line && s.body.subscription == Some(id)
  {
    if line == [] then []
    else
      var rest := Ids(line[1..]);
      assert line == [line[0]] + line[1..];
      OptSeq(line[0].body.subscription) + rest
  }

  function OptSeq<T>(o: Option<T>): (r: seq<T>) {
    if o.Some? then [o.value] else []
  }

  function Over<B>(line: Line<B>, capacity: nat): (n: nat)
    ensures n <= |line| && |line| - n == Min(|line|, capacity)
  {
    if |line| <= capacity then 0 else |line| - capacity
  }

  /** Replace what an answer says and its deadline, keeping its place and ID. */
  function Refresh(line: Line<Route>, id: RouteIdentity, matched: RouteIdentity, entry: RouteEntry,
                   expiresAt: nat): (r: Line<Route>)
    ensures |r| == |line|
    ensures forall i :: 0 <= i < |line| ==>
      r[i] == (if line[i].identity == id then Slot(id, expiresAt, Route(line[i].body.subscription, matched, entry))
        else line[i])
  {
    seq(|line|, i requires 0 <= i < |line| =>
      if line[i].identity == id then Slot(id, expiresAt, Route(line[i].body.subscription, matched, entry)) else line[i])
  }

  /** Forget every ID, keeping the answers. */
  function Unregistered(line: Line<Route>): (r: Line<Route>)
    ensures |r| == |line|
    ensures forall i :: 0 <= i < |line| ==>
      r[i] == Slot(line[i].identity, line[i].expiresAt, line[i].body.(subscription := None))
  {
    seq(|line|, i requires 0 <= i < |line| =>
      Slot(line[i].identity, line[i].expiresAt, line[i].body.(subscription := None)))
  }

  // ---- staleness ---------------------------------------------------------

  datatype Stale =
    | StaleInstance(current: nat, incoming: nat)
    | StaleBackend(currentBackend: nat, incomingBackend: nat)

  /** Generations order answers within one instance lineage only. */
  function StaleRouteEntry(current: RouteEntry, incoming: RouteEntry): (r: Option<Stale>)
    ensures r.None? <==> NotOlder(current, incoming)
  {
    if current.instanceId != incoming.instanceId then None
    else if incoming.instanceGeneration < current.instanceGeneration then
      Some(StaleInstance(current.instanceGeneration, incoming.instanceGeneration))
    else if current.backendGeneration.Some? && incoming.backendGeneration.Some?
            && incoming.backendGeneration.value < current.backendGeneration.value then
      Some(StaleBackend(current.backendGeneration.value, incoming.backendGeneration.value))
    else None
  }

  /** `later` may follow `earlier` without rolling a lineage back. */
  predicate NotOlder(earlier: RouteEntry, later: RouteEntry) {
    earlier.instanceId == later.instanceId ==>
      && earlier.instanceGeneration <= later.instanceGeneration
      && (earlier.backendGeneration.Some? && later.backendGeneration.Some? ==>
            earlier.backendGeneration.value <= later.backendGeneration.value)
  }

  // ---- operations --------------------------------------------------------

  /** A new cache state and the IDs the caller has to release, in order. */
  datatype Outcome = Outcome(view: View, released: seq<SubscriptionId>)

  function Empty(capacity: nat): View { View(capacity, [], []) }

  function LookupAt(v: View, id: RouteIdentity, now: nat): Lookup {
    match Find(v.hits, id)
    case Some(hit) => if now >= hit.expiresAt then Expired else Positive(hit)
    case None =>
      match Find(v.misses, id)
      case Some(miss) => if now >= miss.expiresAt then Expired else Negative(miss)
      case None => Absent
  }

  function ExpireLimited(v: View, now: nat, limit: nat): Outcome {
    var hits := Sweep(v.hits, now, limit);
    var misses := Sweep(v.misses, now, limit - |hits.gone|);
    Outcome(v.(hits := hits.kept, misses := misses.kept), Ids(hits.gone))
  }

  predicate HasExpired(v: View, now: nat) {
    || (exists s :: s in v.hits && s.expiresAt <= now)
    || (exists s :: s in v.misses && s.expiresAt <= now)
  }

  /** The stale branch of an insertion: refuse, and drop an answer no stream backs. */
  function Refused(v: View, existing: Slot<Route>, incoming: Route): Outcome {
    Outcome(
      if existing.body.subscription.None? then v.(hits := Without(v.hits, existing.identity)) else v,
      OptSeq(incoming.subscription))
  }

  /** The IDs an identity gives up to a replacement that may share its subscription. */
  function Displaced(existing: Option<Slot<Route>>, incoming: Route): seq<SubscriptionId> {
    if existing.Some? && existing.value.body.subscription.Some?
       && existing.value.body.subscription != incoming.subscription
    then [existing.value.body.subscription.value]
    else []
  }

  /** Drop whichever other answer the incoming ID already backs. */
  function Unaliased(line: Line<Route>, subscription: Option<SubscriptionId>): Line<Route> {
    if subscription.None? then line
    else
      match Holder(line, subscription.value)
      case Some(identity) => Without(line, identity)
      case None => line
  }

  /** The line just after the new answer joined it and before eviction. */
  function Joined(hits: Line<Route>, request: RouteIdentity, incoming: Route, expiresAt: nat): (r: Line<Route>)
    ensures r != []
  {
    Unaliased(Without(hits, request), incoming.subscription) + [Slot(request, expiresAt, incoming)]
  }

  function Installed(v: View, request: RouteIdentity, incoming: Route, expiresAt: nat): Outcome {
    var full := Joined(v.hits, request, incoming, expiresAt);
    var over := Over(full, v.capacity);
    Outcome(
      v.(hits := full[over..], misses := Without(v.misses, request)),
      Displaced(Find(v.hits, request), incoming) + Ids(full[..over]))
  }

  predicate RefusesIncoming(v: View, request: RouteIdentity, incoming: Route) {
    var existing := Find(v.hits, request);
    existing.Some? && StaleRouteEntry(existing.value.body.entry, incoming.entry).Some?
  }

  function InsertResolved(v: View, request: RouteIdentity, incoming: Route, expiresAt: nat, now: nat): Outcome {
    var swept := ExpireLimited(v, now, INSERT_EXPIRY_BUDGET);
    var rest :=
      if RefusesIncoming(swept.view, request, incoming)
      then Refused(swept.view, Find(swept.view.hits, request).value, incoming)
      else Installed(swept.view, request, incoming, expiresAt);
    Outcome(rest.view, swept.released + rest.released)
  }

  function InsertNegative(v: View, request: RouteIdentity, ttl: nat, now: nat): Outcome {
    var swept := ExpireLimited(v, now, INSERT_EXPIRY_BUDGET);
    var full := Without(swept.view.misses, request) + [Slot(request, now + ttl, Nothing)];
    Outcome(
      swept.view.(hits := Without(swept.view.hits, request), misses := full[Over(full, v.capacity)..]),
      swept.released + HeldId(swept.view, request))
  }

  /** The ID held by an identity's answer, if a live stream backs it. */
  function HeldId(v: View, id: RouteIdentity): seq<SubscriptionId> {
    var hit := Find(v.hits, id);
    if hit.Some? then OptSeq(hit.value.body.subscription) else []
  }

  function InvalidateSubscription(v: View, id: SubscriptionId): View {
    v.(hits := Unaliased(v.hits, Some(id)))
  }

  function InvalidateRequest(v: View, id: RouteIdentity): Outcome {
    Outcome(v.(hits := Without(v.hits, id)), HeldId(v, id))
  }

  function RefreshPositive(v: View, id: RouteIdentity, matched: RouteIdentity, entry: RouteEntry, ttl: nat,
                           now: nat): View {
    v.(hits := Refresh(v.hits, id, matched, entry, now + ttl))
  }

  function ReplaceSubscription(v: View, id: SubscriptionId, matched: RouteIdentity, entry: RouteEntry, ttl: nat,
                               now: nat): View {
    match Holder(v.hits, id)
    case Some(identity) => RefreshPositive(v, identity, matched, entry, ttl, now)
    case None => v
  }

  function RotateSession(v: View): View { v.(hits := Unregistered(v.hits)) }

  predicate NeedsReregistration(v: View, id: RouteIdentity, now: nat) {
    var hit := Find(v.hits, id);
    hit.Some? && hit.value.body.subscription.None? && now < hit.value.expiresAt
  }

  // ---- the subscription layer, which guards updates by staleness -----------

  function BackedBy(v: View, id: SubscriptionId): Option<Slot<Route>> {
    match Holder(v.hits, id)
    case Some(identity) => Find(v.hits, identity)
    case None => None
  }

  /** A control-plane update reaches the cache only if it is not stale. */
  function ApplyUpdate(v: View, id: SubscriptionId, matched: RouteIdentity, entry: RouteEntry, ttl: nat,
                       now: nat): View {
    var current := BackedBy(v, id);
    if current.Some? && StaleRouteEntry(current.value.body.entry, entry).None?
    then ReplaceSubscription(v, id, matched, entry, ttl, now)
    else v
  }

  /** A finished wake refreshes its answer for what is left of `cached`'s lifetime. */
  function ApplyReadyWake(v: View, cached: Slot<Route>, ready: RouteEntry, now: nat): View {
    var current := Find(v.hits, cached.identity);
    if current.Some? && StaleRouteEntry(current.value.body.entry, ready).None?
    then RefreshPositive(v, cached.identity, cached.body.matched, ready, Max(cached.expiresAt - now, 0), now)
    else v
  }

  // ---- what every reachable cache satisfies ------------------------------

  ghost predicate DistinctSubscriptions(line: Line<Route>) {
    forall i, j :: 0 <= i < j < |line| && line[i].body.subscription.Some? ==>
      line[i].body.subscription != line[j].body.subscription
  }

  /** No identity is answered twice and no ID backs two answers. */
  ghost predicate Tidy(v: View) {
    && DistinctIdentities(v.hits)
    && DistinctIdentities(v.misses)
    && DistinctSubscriptions(v.hits)
    && (forall i, j :: 0 <= i < |v.hits| && 0 <= j < |v.misses| ==> v.hits[i].identity != v.misses[j].identity)
  }

  ghost predicate WellFormed(v: View) {
    Tidy(v) && |v.hits| <= v.capacity && |v.misses| <= v.capacity
  }

  // ---- runs --------------------------------------------------------------

  datatype Op =
    | OpInsertResolved(request: RouteIdentity, incoming: Route, expiresAt: nat, now: nat)
    | OpInsertNegative(request: RouteIdentity, ttl: nat, now: nat)
    | OpExpire(now: nat, limit: nat)
    | OpInvalidateSubscription(id: SubscriptionId)
    | OpInvalidateRequest(request: RouteIdentity)
    | OpReplace(id: SubscriptionId, matched: RouteIdentity, entry: RouteEntry, ttl: nat, now: nat)
    | OpRefresh(request: RouteIdentity, matched: RouteIdentity, entry: RouteEntry, ttl: nat, now: nat)
    | OpUpdate(id: SubscriptionId, matched: RouteIdentity, entry: RouteEntry, ttl: nat, now: nat)
    | OpReadyWake(cached: Slot<Route>, ready: RouteEntry, now: nat)
    | OpRotate
    | OpClear

  function Step(v: View, op: Op): Outcome {
    match op
    case OpInsertResolved(request, incoming, expiresAt, now) => InsertResolved(v, request, incoming, expiresAt, now)
    case OpInsertNegative(request, ttl, now) => InsertNegative(v, request, ttl, now)
    case OpExpire(now, limit) => ExpireLimited(v, now, limit)
    case OpInvalidateSubscription(id) => Outcome(InvalidateSubscription(v, id), [])
    case OpInvalidateRequest(request) => InvalidateRequest(v, request)
    case OpReplace(id, matched, entry, ttl, now) => Outcome(ReplaceSubscription(v, id, matched, entry, ttl, now), [])
    case OpRefresh(request, matched, entry, ttl, now) =>
      Outcome(RefreshPositive(v, request, matched, entry, ttl, now), [])
    case OpUpdate(id, matched, entry, ttl, now) => Outcome(ApplyUpdate(v, id, matched, entry, ttl, now), [])
    case OpReadyWake(cached, ready, now) => Outcome(ApplyReadyWake(v, cached, ready, now), [])
    case OpRotate => Outcome(RotateSession(v), [])
    case OpClear => Outcome(Empty(v.capacity), [])
  }

  /** The state after a whole run, and every ID reported for release on the way. */
  function Run(v: View, ops: seq<Op>): (r: Outcome)
    decreases |ops|
  {
    if ops == [] then Outcome(v, [])
    else
      var before := Run(v, ops[..|ops| - 1]);
      var last := Step(before.view, ops[|ops| - 1]);
      Outcome(last.view, before.released + last.released)
  }
}
