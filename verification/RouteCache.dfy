/**
 The frontline route cache as it is stored: seven maps and a sequence counter.
 Every method is proved against the index-free cache of `CacheSpec`.
 */
module FrontlineCache {
  import opened Prelude
  import opened CacheSpec
  import opened CacheLines
  import opened CacheIndex

  /** No identity is tabled in both halves. */
  lemma HalvesApart(hits: Entries<Route>, misses: Entries<Nothing>, counter: nat, capacity: nat)
    requires Queued(hits, counter) && Queued(misses, counter) && Tidy(View(capacity, Slots(hits), Slots(misses)))
    ensures forall id :: !(id in FromPairs(ByIdentity(hits)) && id in FromPairs(ByIdentity(misses)))
  {
    hide FromPairs, Queued;
    forall id | id in FromPairs(ByIdentity(hits)) && id in FromPairs(ByIdentity(misses)) ensures false {
      var i := Place(hits, counter, id);
      var j := Place(misses, counter, id);
    }
  }

  class RouteCache {
    const capacity: nat
    var positives: map<RouteIdentity, Entry<Route>>
    var bySubscription: map<SubscriptionId, RouteIdentity>
    var positiveOrder: map<nat, RouteIdentity>
    var positiveExpiry: map<(nat, nat), RouteIdentity>
    var negatives: map<RouteIdentity, Entry<Nothing>>
    var negativeOrder: map<nat, RouteIdentity>
    var negativeExpiry: map<(nat, nat), RouteIdentity>
    var sequence: nat

    ghost var hitLine: Entries<Route>
    ghost var missLine: Entries<Nothing>

    /** What the maps stand for. */
    ghost function View(): View
      reads this
    {
      CacheSpec.View(capacity, Slots(hitLine), Slots(missLine))
    }

    /** All seven maps are functions of the two lines. */
    ghost predicate Coherent()
      reads this
    {
      && Indexed(hitLine, positives, positiveOrder, positiveExpiry, sequence)
      && Indexed(missLine, negatives, negativeOrder, negativeExpiry, sequence)
      && bySubscription == BySubscription(Slots(hitLine))
      && Tidy(View())
    }

    ghost predicate Valid()
      reads this
    {
      Coherent() && WellFormed(View())
    }

    /** What validity says of the stored maps, without the lines. */
    lemma MapsAgree()
      requires Valid()
      ensures KeysAgree(positives, positiveOrder, positiveExpiry, sequence)
      ensures KeysAgree(negatives, negativeOrder, negativeExpiry, sequence)
      ensures forall id, identity ::
        (id in bySubscription && bySubscription[id] == identity) <==>
        (identity in positives && positives[identity].slot.body.subscription == Some(id))
      ensures forall id :: !(id in positives && id in negatives)
      ensures |positives| <= capacity && |negatives| <= capacity
    {
      hide KeysAgree, FromPairs, BySubscription, Tidy, Queued, Slots;
      TidyDistinct(View());
      IndexedAgrees(hitLine, positives, positiveOrder, positiveExpiry, sequence);
      IndexedAgrees(missLine, negatives, negativeOrder, negativeExpiry, sequence);
      forall id, identity
        ensures (id in bySubscription && bySubscription[id] == identity) <==>
                (identity in positives && positives[identity].slot.body.subscription == Some(id))
      {
        SubscriptionsAgree(hitLine, sequence, id, identity);
      }
      HalvesApart(hitLine, missLine, sequence, capacity);
      QueuedKeys(hitLine, sequence);
      QueuedKeys(missLine, sequence);
    }

    constructor (capacity: nat)
      ensures Valid() && View() == Empty(capacity)
    {
      this.capacity := capacity;
      positives, bySubscription, positiveOrder, positiveExpiry := map[], map[], map[], map[];
      negatives, negativeOrder, negativeExpiry := map[], map[], map[];
      sequence := 0;
      hitLine, missLine := [], [];
      new;
      IndexedEmpty<Route>();
      IndexedEmpty<Nothing>();
    }

    method Clear()
      modifies this
      ensures Valid() && View() == Empty(capacity)
    {
      IndexedEmpty<Route>();
      IndexedEmpty<Nothing>();
      hide Indexed, Slots;
      positives, bySubscription, positiveOrder, positiveExpiry := map[], map[], map[], map[];
      negatives, negativeOrder, negativeExpiry := map[], map[], map[];
      sequence := 0;
      hitLine, missLine := [], [];
    }

    method Lookup(identity: RouteIdentity, now: nat) returns (r: Lookup)
      requires Valid()
      ensures r == LookupAt(View(), identity, now)
    {
      hide Indexed, Tidy;
      IndexedProbe(hitLine, positives, positiveOrder, positiveExpiry, sequence, identity);
      IndexedProbe(missLine, negatives, negativeOrder, negativeExpiry, sequence, identity);
      if identity in positives {
        var slot := positives[identity].slot;
        return if now >= slot.expiresAt then Expired else CacheSpec.Positive(slot);
      }
      if identity in negatives {
        var slot := negatives[identity].slot;
        return if now >= slot.expiresAt then Expired else CacheSpec.Negative(slot);
      }
      return Absent;
    }

    method NeedsReregistration(identity: RouteIdentity, now: nat) returns (r: bool)
      requires Valid()
      ensures r <==> CacheSpec.NeedsReregistration(View(), identity, now)
    {
      hide Indexed, Tidy;
      IndexedProbe(hitLine, positives, positiveOrder, positiveExpiry, sequence, identity);
      r := identity in positives
        && positives[identity].slot.body.subscription.None?
        && now < positives[identity].slot.expiresAt;
    }

    // ---- removal ---------------------------------------------------------

    method RemovePositive(identity: RouteIdentity) returns (removed: Option<Slot<Route>>)
      requires Coherent()
      modifies this`positives, this`bySubscription, this`positiveOrder, this`positiveExpiry, this`hitLine
      ensures Coherent()
      ensures removed == Find(old(View()).hits, identity)
      ensures View() == old(View()).(hits := Without(old(View()).hits, identity))
    {
      hide Indexed, Tidy, BySubscription, Slots, Find, Without;
      IndexedProbe(hitLine, positives, positiveOrder, positiveExpiry, sequence, identity);
      if identity !in positives {
        return None;
      }
      var entry := positives[identity];
      ghost var k := IndexedRemove(hitLine, positives, positiveOrder, positiveExpiry, sequence, identity);
      ForgetHit(View(), k);

      positives := positives - {identity};
      if entry.slot.body.subscription.Some? {
        bySubscription := bySubscription - {entry.slot.body.subscription.value};
      }
      positiveOrder := positiveOrder - {entry.sequence};
      positiveExpiry := positiveExpiry - {Due(entry)};
      hitLine := RemoveAt(hitLine, k);
      return Some(entry.slot);
    }

    method RemovePositiveBySubscription(id: SubscriptionId) returns (removed: Option<Slot<Route>>)
      requires Coherent()
      modifies this`positives, this`bySubscription, this`positiveOrder, this`positiveExpiry, this`hitLine
      ensures Coherent()
      ensures removed == BackedBy(old(View()), id)
      ensures View() == old(View()).(hits := Unaliased(old(View()).hits, Some(id)))
    {
      hide Indexed, BySubscription, Find, Without, Holder;
      ProbeSubscription(Slots(hitLine), id);
      if id !in bySubscription {
        return None;
      }
      removed := RemovePositive(bySubscription[id]);
    }

    method RemoveNegative(request: RouteIdentity)
      requires Coherent()
      modifies this`negatives, this`negativeOrder, this`negativeExpiry, this`missLine
      ensures Coherent()
      ensures View() == old(View()).(misses := Without(old(View()).misses, request))
    {
      hide Indexed, Tidy, BySubscription, Slots, Find, Without;
      IndexedProbe(missLine, negatives, negativeOrder, negativeExpiry, sequence, request);
      if request !in negatives {
        return;
      }
      var entry := negatives[request];
      ghost var k := IndexedRemove(missLine, negatives, negativeOrder, negativeExpiry, sequence, request);
      DropMiss(View(), k);

      negatives := negatives - {request};
      negativeOrder := negativeOrder - {entry.sequence};
      negativeExpiry := negativeExpiry - {Due(entry)};
      missLine := RemoveAt(missLine, k);
    }

    // ---- expiry ----------------------------------------------------------

    /** Whether an expiry pass would remove something; reads two first keys. */
    method HasExpired(now: nat) returns (r: bool)
      requires Valid()
      ensures r <==> CacheSpec.HasExpired(View(), now)
    {
      hide Indexed, Tidy, BySubscription;
      IndexedDue(hitLine, positives, positiveOrder, positiveExpiry, sequence);
      IndexedDue(missLine, negatives, negativeOrder, negativeExpiry, sequence);
      r := false;
      if positiveExpiry != map[] {
        var d: (nat, nat) :| d in positiveExpiry && forall c :: c in positiveExpiry ==> DueBefore(d, c);
        r := d.0 <= now;
      }
      if !r && negativeExpiry != map[] {
        var d: (nat, nat) :| d in negativeExpiry && forall c :: c in negativeExpiry ==> DueBefore(d, c);
        r := d.0 <= now;
      }
      ExpiredFirst(View().hits, now);
      ExpiredFirst(View().misses, now);
    }

    method ExpirePositives(now: nat, limit: nat) returns (released: seq<SubscriptionId>, remaining: nat)
      requires Coherent()
      modifies this`positives, this`bySubscription, this`positiveOrder, this`positiveExpiry, this`hitLine
      ensures Coherent()
      ensures
        var swept := Sweep(old(View()).hits, now, limit);
        && View() == old(View()).(hits := swept.kept)
        && released == Ids(swept.gone)
        && remaining == limit - |swept.gone|
    {
      hide Indexed, Tidy, BySubscription, Find, Without, Sweep, Slots, Ids, Earliest, Resumed, DistinctIdentities;
      remaining, released := limit, [];
      ghost var gone: Line<Route> := [];
      SweepRest(View().hits, now, limit, gone);
      IdsNone();
      while positiveExpiry != map[]
        invariant Coherent()
        invariant View() == old(View()).(hits := View().hits)
        invariant Sweep(old(View()).hits, now, limit) == Resumed(View().hits, now, remaining, gone)
        invariant released == Ids(gone) && remaining == limit - |gone|
        decreases remaining
      {
        IndexedDue(hitLine, positives, positiveOrder, positiveExpiry, sequence);
        var d: (nat, nat) :| d in positiveExpiry && forall c :: c in positiveExpiry ==> DueBefore(d, c);
        if d.0 > now || remaining == 0 {
          break;
        }
        ghost var before := View();
        remaining := remaining - 1;
        TidyDistinct(before);
        ResumedTurn(before.hits, now, remaining + 1, gone);
        var removed := RemovePositive(positiveExpiry[d]);
        IdsGrow(gone, removed.value);
        gone := gone + [removed.value];
        released := released + OptSeq(removed.value.body.subscription);
      }
      IndexedDue(hitLine, positives, positiveOrder, positiveExpiry, sequence);
      ResumedEnd(View().hits, now, remaining, gone);
    }

    method ExpireNegatives(now: nat, limit: nat)
      requires Coherent()
      modifies this`negatives, this`negativeOrder, this`negativeExpiry, this`missLine
      ensures Coherent()
      ensures View() == old(View()).(misses := Sweep(old(View()).misses, now, limit).kept)
    {
      hide Indexed, Tidy, BySubscription, Find, Without, Sweep, Slots, Earliest;
      var remaining := limit;
      ghost var gone: Line<Nothing> := [];
      SweepRest(View().misses, now, limit, gone);
      while negativeExpiry != map[]
        invariant Coherent()
        invariant View() == old(View()).(misses := View().misses)
        invariant Sweep(old(View()).misses, now, limit) == Resumed(View().misses, now, remaining, gone)
        decreases remaining
      {
        IndexedDue(missLine, negatives, negativeOrder, negativeExpiry, sequence);
        var d: (nat, nat) :| d in negativeExpiry && forall c :: c in negativeExpiry ==> DueBefore(d, c);
        if d.0 > now || remaining == 0 {
          break;
        }
        remaining := remaining - 1;
        TidyDistinct(View());
        ResumedTurn(View().misses, now, remaining + 1, gone);
        gone := gone + [Find(View().misses, negativeExpiry[d]).value];
        RemoveNegative(negativeExpiry[d]);
      }
      IndexedDue(missLine, negatives, negativeOrder, negativeExpiry, sequence);
      ResumedEnd(View().misses, now, remaining, gone);
    }

    /** Clear at most `limit` expired answers, positives first, in deadline order. */
    method ExpireLimited(now: nat, limit: nat) returns (released: seq<SubscriptionId>)
      requires Valid()
      modifies this`positives, this`bySubscription, this`positiveOrder, this`positiveExpiry, this`hitLine
      modifies this`negatives, this`negativeOrder, this`negativeExpiry, this`missLine
      ensures Valid()
      ensures Outcome(View(), released) == CacheSpec.ExpireLimited(old(View()), now, limit)
    {
      hide Indexed, Tidy, BySubscription, Sweep, Slots, Ids;
      ExpireWellFormed(View(), now, limit);
      var remaining;
      released, remaining := ExpirePositives(now, limit);
      ExpireNegatives(now, remaining);
    }

    method Expire(now: nat) returns (released: seq<SubscriptionId>)
      requires Valid()
      modifies this`positives, this`bySubscription, this`positiveOrder, this`positiveExpiry, this`hitLine
      modifies this`negatives, this`negativeOrder, this`negativeExpiry, this`missLine
      ensures Valid()
      ensures Outcome(View(), released) == CacheSpec.ExpireLimited(old(View()), now, USIZE_MAX)
    {
      released := ExpireLimited(now, USIZE_MAX);
    }

    // ---- insertion -------------------------------------------------------

    /** Give the answer the next sequence number and enter it in every index. */
    method IndexPositive(slot: Slot<Route>)
      requires Coherent()
      requires Find(View().hits, slot.identity) == None
      requires Tidy(View().(hits := View().hits + [slot]))
      modifies this`positives, this`bySubscription, this`positiveOrder, this`positiveExpiry, this`hitLine, this`sequence
      ensures Coherent()
      ensures View() == old(View()).(hits := old(View()).hits + [slot])
    {
      hide Indexed, Tidy, BySubscription, Find, Slots;
      var entry := Entry(slot, sequence + 1);
      IndexedAdd(hitLine, positives, positiveOrder, positiveExpiry, sequence, entry);
      IndexedLater(missLine, negatives, negativeOrder, negativeExpiry, sequence, entry.sequence);
      TidyDistinct(View());
      AddedSubscription(Slots(hitLine), slot);

      sequence := sequence + 1;
      if slot.body.subscription.Some? {
        bySubscription := bySubscription[slot.body.subscription.value := slot.identity];
      }
      positiveOrder := positiveOrder[entry.sequence := slot.identity];
      positiveExpiry := positiveExpiry[Due(entry) := slot.identity];
      positives := positives[slot.identity := entry];
      hitLine := hitLine + [entry];
    }

    /** Drop the oldest positive answer. */
    method EvictOldest() returns (released: seq<SubscriptionId>)
      requires Coherent() && View().hits != []
      modifies this`positives, this`bySubscription, this`positiveOrder, this`positiveExpiry, this`hitLine
      ensures Coherent()
      ensures
        var hits := old(View()).hits;
        View() == old(View()).(hits := hits[1..]) && released == OptSeq(hits[0].body.subscription)
    {
      hide Indexed, Tidy, BySubscription, Find, Without, Slots;
      IndexedOldest(hitLine, positives, positiveOrder, positiveExpiry, sequence);
      var q :| q in positiveOrder && forall p :: p in positiveOrder ==> q <= p;
      TidyDistinct(View());
      WithoutFirst(View().hits);
      var removed := RemovePositive(positiveOrder[q]);
      released := OptSeq(removed.value.body.subscription);
    }

    /** Evict from the front of the FIFO order until the positive half fits. */
    method EvictPositives() returns (released: seq<SubscriptionId>)
      requires Coherent()
      modifies this`positives, this`bySubscription, this`positiveOrder, this`positiveExpiry, this`hitLine
      ensures Coherent()
      ensures
        var full := old(View()).hits;
        var over := Over(full, capacity);
        View() == old(View()).(hits := full[over..]) && released == Ids(full[..over])
      ensures |View().hits| == Min(|old(View()).hits|, capacity)
    {
      hide Indexed, Tidy, BySubscription, Slots, Ids, Coherent;
      released := [];
      ghost var full, n := View().hits, 0;
      IdsNone();
      CountHits();
      while |positives| > capacity
        invariant Coherent()
        invariant 0 <= n <= Over(full, capacity)
        invariant View() == old(View()).(hits := full[n..])
        invariant |positives| == |full| - n
        invariant released == Ids(full[..n])
      {
        var more := EvictOldest();
        assert full[..n + 1] == full[..n] + [full[n]] && full[n..][1..] == full[n + 1..];
        IdsGrow(full[..n], full[n]);
        released := released + more;
        n := n + 1;
        CountHits();
      }
    }

    lemma CountHits()
      requires Coherent()
      ensures |positives| == |View().hits|
    {
      hide Tidy, BySubscription, Find, Without;
      IndexedProbe(hitLine, positives, positiveOrder, positiveExpiry, sequence, RouteIdentity(""));
    }

    /** Install an answer for exactly the queried identity. */
    method InsertResolved(request: RouteIdentity, incoming: Route, expiresAt: nat, now: nat)
      returns (released: seq<SubscriptionId>)
      requires Valid()
      modifies this
      ensures Valid()
      ensures Outcome(View(), released) == CacheSpec.InsertResolved(old(View()), request, incoming, expiresAt, now)
    {
      hide Indexed, Tidy, BySubscription, Find, Without, Slots, Ids, Holder, Sweep;
      InsertResolvedWellFormed(View(), request, incoming, expiresAt, now);
      released := ExpireLimited(now, INSERT_EXPIRY_BUDGET);
      ghost var swept := View();
      IndexedProbe(hitLine, positives, positiveOrder, positiveExpiry, sequence, request);
      if request in positives && StaleRouteEntry(positives[request].slot.body.entry, incoming.entry).Some? {
        released := released + OptSeq(incoming.subscription);
        if positives[request].slot.body.subscription.None? {
          var _ := RemovePositive(request);
        }
        return;
      }
      var more := Install(request, incoming, expiresAt);
      released := released + more;
    }

    /** The accepting branch of `InsertResolved`. */
    method Install(request: RouteIdentity, incoming: Route, expiresAt: nat) returns (released: seq<SubscriptionId>)
      requires Valid()
      modifies this
      ensures Coherent()
      ensures Outcome(View(), released) == Installed(old(View()), request, incoming, expiresAt)
    {
      hide Indexed, Tidy, BySubscription, Find, Without, Slots, Ids, Holder;
      ghost var v := View();
      JoinedTidy(v, request, incoming, expiresAt);
      JoinedFresh(v, request, incoming);
      released := [];
      var removed := RemovePositive(request);
      if removed.Some? && removed.value.body.subscription.Some?
         && removed.value.body.subscription != incoming.subscription {
        released := [removed.value.body.subscription.value];
      }
      if incoming.subscription.Some? {
        var _ := RemovePositiveBySubscription(incoming.subscription.value);
      }
      RemoveNegative(request);
      IndexPositive(Slot(request, expiresAt, incoming));
      var evicted := EvictPositives();
      released := released + evicted;
    }

    method IndexNegative(slot: Slot<Nothing>)
      requires Coherent()
      requires Find(View().misses, slot.identity) == None
      requires Tidy(View().(misses := View().misses + [slot]))
      modifies this`negatives, this`negativeOrder, this`negativeExpiry, this`missLine, this`sequence
      ensures Coherent()
      ensures View() == old(View()).(misses := old(View()).misses + [slot])
    {
      hide Indexed, Tidy, BySubscription, Find, Slots;
      var entry := Entry(slot, sequence + 1);
      IndexedAdd(missLine, negatives, negativeOrder, negativeExpiry, sequence, entry);
      IndexedLater(hitLine, positives, positiveOrder, positiveExpiry, sequence, entry.sequence);

      sequence := sequence + 1;
      negativeOrder := negativeOrder[entry.sequence := slot.identity];
      negativeExpiry := negativeExpiry[Due(entry) := slot.identity];
      negatives := negatives[slot.identity := entry];
      missLine := missLine + [entry];
    }

    method EvictNegatives()
      requires Coherent()
      modifies this`negatives, this`negativeOrder, this`negativeExpiry, this`missLine
      ensures Coherent()
      ensures
        var full := old(View()).misses;
        View() == old(View()).(misses := full[Over(full, capacity)..])
      ensures |View().misses| == Min(|old(View()).misses|, capacity)
    {
      hide Indexed, Tidy, BySubscription, Find, Without, Slots;
      ghost var full, n := View().misses, 0;
      IndexedProbe(missLine, negatives, negativeOrder, negativeExpiry, sequence, RouteIdentity(""));
      while |negatives| > capacity
        invariant Coherent()
        invariant 0 <= n <= Over(full, capacity)
        invariant View() == old(View()).(misses := full[n..])
        invariant |negatives| == |full| - n
      {
        IndexedOldest(missLine, negatives, negativeOrder, negativeExpiry, sequence);
        var q :| q in negativeOrder && forall p :: p in negativeOrder ==> q <= p;
        TidyDistinct(View());
        WithoutFirst(full[n..]);
        RemoveNegative(negativeOrder[q]);
        n := n + 1;
        IndexedProbe(missLine, negatives, negativeOrder, negativeExpiry, sequence, RouteIdentity(""));
      }
    }

    /** Record that an identity has no route. */
    method InsertNegative(request: RouteIdentity, ttl: nat, now: nat) returns (released: seq<SubscriptionId>)
      requires Valid()
      modifies this
      ensures Valid()
      ensures Outcome(View(), released) == CacheSpec.InsertNegative(old(View()), request, ttl, now)
    {
      hide Indexed, Tidy, BySubscription, Find, Without, Slots, Ids, Sweep;
      InsertNegativeWellFormed(View(), request, ttl, now);
      released := ExpireLimited(now, INSERT_EXPIRY_BUDGET);
      MissJoins(View(), request, Slot(request, now + ttl, Nothing));
      var removed := RemovePositive(request);
      if removed.Some? {
        released := released + OptSeq(removed.value.body.subscription);
      }
      RemoveNegative(request);
      IndexNegative(Slot(request, now + ttl, Nothing));
      EvictNegatives();
    }

    // ---- messages that address an existing answer ------------------------

    method InvalidateSubscription(id: SubscriptionId) returns (reached: bool)
      requires Valid()
      modifies this`positives, this`bySubscription, this`positiveOrder, this`positiveExpiry, this`hitLine
      ensures Valid()
      ensures View() == CacheSpec.InvalidateSubscription(old(View()), id)
      ensures reached <==> BackedBy(old(View()), id).Some?
    {
      hide Indexed, Tidy, BySubscription, Find, Without, Slots, Holder;
      UnaliasedTidy(View(), Some(id));
      var removed := RemovePositiveBySubscription(id);
      reached := removed.Some?;
    }

    method InvalidateRequest(identity: RouteIdentity) returns (held: Option<SubscriptionId>)
      requires Valid()
      modifies this`positives, this`bySubscription, this`positiveOrder, this`positiveExpiry, this`hitLine
      ensures Valid()
      ensures Outcome(View(), OptSeq(held)) == CacheSpec.InvalidateRequest(old(View()), identity)
    {
      hide Indexed, Tidy, BySubscription, Find, Slots;
      var removed := RemovePositive(identity);
      held := if removed.Some? then removed.value.body.subscription else None;
    }

    /** Update an answer in place, keeping its FIFO position and its ID. */
    method RefreshPositive(identity: RouteIdentity, matched: RouteIdentity, entry: RouteEntry, ttl: nat, now: nat)
      requires Valid()
      modifies this`positives, this`positiveExpiry, this`hitLine
      ensures Valid()
      ensures View() == CacheSpec.RefreshPositive(old(View()), identity, matched, entry, ttl, now)
    {
      hide Indexed, Tidy, BySubscription, Find, Without, Slots, Refresh;
      ghost var v := View();
      IndexedProbe(hitLine, positives, positiveOrder, positiveExpiry, sequence, identity);
      if identity !in positives {
        RefreshAbsent(v.hits, identity, matched, entry, now + ttl);
        return;
      }
      var cached := positives[identity];
      var updated :=
        Entry(Slot(identity, now + ttl, Route(cached.slot.body.subscription, matched, entry)), cached.sequence);
      ghost var k := IndexedMove(hitLine, positives, positiveOrder, positiveExpiry, sequence, updated);
      RefreshedHit(v, k, matched, entry, now + ttl);
      RefreshTidy(v, identity, matched, entry, now + ttl);

      positives := positives[identity := updated];
      positiveExpiry := positiveExpiry - {Due(cached)};
      positiveExpiry := positiveExpiry[Due(updated) := identity];
      hitLine := hitLine[k := updated];
    }

    method ReplaceSubscription(id: SubscriptionId, matched: RouteIdentity, entry: RouteEntry, ttl: nat, now: nat)
      requires Valid()
      modifies this`positives, this`positiveExpiry, this`hitLine
      ensures Valid()
      ensures View() == CacheSpec.ReplaceSubscription(old(View()), id, matched, entry, ttl, now)
    {
      hide Indexed, Tidy, BySubscription, Holder, Slots, Refresh;
      TidyDistinct(View());
      ProbeSubscription(Slots(hitLine), id);
      if id in bySubscription {
        RefreshPositive(bySubscription[id], matched, entry, ttl, now);
      }
    }

    method Positive(identity: RouteIdentity) returns (r: Option<Slot<Route>>)
      requires Valid()
      ensures r == Find(View().hits, identity)
    {
      hide Indexed, Tidy, BySubscription;
      IndexedProbe(hitLine, positives, positiveOrder, positiveExpiry, sequence, identity);
      r := if identity in positives then Some(positives[identity].slot) else None;
    }

    method PositiveBySubscription(id: SubscriptionId) returns (r: Option<Slot<Route>>)
      requires Valid()
      ensures r == BackedBy(View(), id)
    {
      hide Indexed, Tidy, BySubscription, Holder;
      TidyDistinct(View());
      ProbeSubscription(Slots(hitLine), id);
      r := None;
      if id in bySubscription {
        r := Positive(bySubscription[id]);
      }
    }

    /** The stream ended: keep every answer, drop every ID, report what to register again. */
    method RotateSession() returns (identities: seq<RouteIdentity>)
      requires Valid()
      modifies this`positives, this`bySubscription, this`hitLine
      ensures Valid()
      ensures View() == CacheSpec.RotateSession(old(View()))
      ensures Distinct(identities)
      ensures forall id :: id in identities <==> Find(old(View()).hits, id).Some?
    {
      hide Indexed, Tidy, BySubscription, Find, Slots, Unregistered;
      UnregisteredTidy(View());
      bySubscription := map[];
      identities := [];
      var todo := positives.Keys;
      while todo != {}
        invariant positives.Keys == old(positives).Keys && todo <= positives.Keys
        invariant forall k :: k in old(positives) ==>
          positives[k] == if k in todo then old(positives)[k] else UnregisteredEntry(old(positives)[k])
        invariant forall k :: k in identities <==> k in old(positives) && k !in todo
        invariant Distinct(identities)
        invariant hitLine == old(hitLine) && bySubscription == map[]
        decreases todo
      {
        var key :| key in todo;
        positives := positives[key := UnregisteredEntry(positives[key])];
        identities := identities + [key];
        todo := todo - {key};
      }
      IndexedUnregister(hitLine, old(positives), positiveOrder, positiveExpiry, sequence, positives);
      UnregisteredBacksNone(Slots(hitLine));
      hitLine := UnregisteredEntries(hitLine);
    }
  }

  /**
   The proxy's subscription state: a cache that control-plane messages reach
   only through the staleness guard.
   */
  class SubscriptionState {
    const cache: RouteCache

    constructor (cache: RouteCache)
      ensures this.cache == cache
    {
      this.cache := cache;
    }

    /** `None` when no live answer is backed by the ID, `Some(stale)` when refused. */
    method ApplyUpdate(id: SubscriptionId, matched: RouteIdentity, entry: RouteEntry, ttl: nat, now: nat)
      returns (refused: Option<Stale>, reached: bool)
      requires cache.Valid()
      modifies cache
      ensures cache.Valid()
      ensures cache.View() == CacheSpec.ApplyUpdate(old(cache.View()), id, matched, entry, ttl, now)
      ensures reached <==> BackedBy(old(cache.View()), id).Some?
      ensures refused == if reached then StaleRouteEntry(BackedBy(old(cache.View()), id).value.body.entry, entry)
        else None
    {
      hide Indexed, Tidy, BySubscription, Holder, Find, Slots, Refresh;
      var current := cache.PositiveBySubscription(id);
      reached, refused := current.Some?, None;
      if reached {
        refused := StaleRouteEntry(current.value.body.entry, entry);
        if refused.None? {
          cache.ReplaceSubscription(id, matched, entry, ttl, now);
        }
      }
    }

    method ApplyReadyWake(cached: Slot<Route>, ready: RouteEntry, now: nat)
      returns (refused: Option<Stale>, reached: bool)
      requires cache.Valid()
      modifies cache
      ensures cache.Valid()
      ensures cache.View() == CacheSpec.ApplyReadyWake(old(cache.View()), cached, ready, now)
      ensures reached <==> Find(old(cache.View()).hits, cached.identity).Some?
      ensures refused == if reached then
        StaleRouteEntry(Find(old(cache.View()).hits, cached.identity).value.body.entry, ready) else None
    {
      hide Indexed, Tidy, BySubscription, Holder, Find, Slots, Refresh;
      var current := cache.Positive(cached.identity);
      reached, refused := current.Some?, None;
      if reached {
        refused := StaleRouteEntry(current.value.body.entry, ready);
        if refused.None? {
          var remaining := Max(cached.expiresAt - now, 0);
          cache.RefreshPositive(cached.identity, cached.body.matched, ready, remaining, now);
        }
      }
    }

    /** One operation on the stored cache is one step of the index-free cache. */
    method Perform(op: Op) returns (released: seq<SubscriptionId>)
      requires cache.Valid()
      modifies cache
      ensures cache.Valid()
      ensures Outcome(cache.View(), released) == Step(old(cache.View()), op)
    {
      hide Indexed, Tidy, BySubscription, Holder, Find, Slots;
      hide Refresh, Sweep, Ids, Unregistered, Without, RouteCache.Coherent;
      released := [];
      match op
      case OpInsertResolved(request, incoming, expiresAt, now) =>
        released := cache.InsertResolved(request, incoming, expiresAt, now);
      case OpInsertNegative(request, ttl, now) => released := cache.InsertNegative(request, ttl, now);
      case OpExpire(now, limit) => released := cache.ExpireLimited(now, limit);
      case OpInvalidateSubscription(id) => var _ := cache.InvalidateSubscription(id);
      case OpInvalidateRequest(request) =>
        var held := cache.InvalidateRequest(request);
        released := OptSeq(held);
      case OpReplace(id, matched, entry, ttl, now) => cache.ReplaceSubscription(id, matched, entry, ttl, now);
      case OpRefresh(request, matched, entry, ttl, now) => cache.RefreshPositive(request, matched, entry, ttl, now);
      case OpUpdate(id, matched, entry, ttl, now) => var _, _ := ApplyUpdate(id, matched, entry, ttl, now);
      case OpReadyWake(cached, ready, now) => var _, _ := ApplyReadyWake(cached, ready, now);
      case OpRotate => var _ := cache.RotateSession();
      case OpClear => cache.Clear();
    }

    /** Every run of the stored cache is a run of the index-free cache. */
    method PerformAll(ops: seq<Op>) returns (released: seq<SubscriptionId>)
      requires cache.Valid()
      modifies cache
      ensures cache.Valid()
      ensures Outcome(cache.View(), released) == Run(old(cache.View()), ops)
    {
      hide Indexed, Tidy, BySubscription, Slots, Step, RouteCache.Coherent;
      released := [];
      for i := 0 to |ops|
        invariant cache.Valid()
        invariant Outcome(cache.View(), released) == Run(old(cache.View()), ops[..i])
      {
        var more := Perform(ops[i]);
        released := released + more;
        assert ops[..i + 1][..i] == ops[..i];
      }
      assert ops[..|ops|] == ops;
    }
  }

  lemma MissJoins(v: View, request: RouteIdentity, s: Slot<Nothing>)
    requires Tidy(v) && s.identity == request
    ensures Find(Without(v.misses, request), request) == None
    ensures Tidy(v.(hits := Without(v.hits, request), misses := Without(v.misses, request) + [s]))
  {
    WithoutExcludes(v.hits, request);
    WithoutExcludes(v.misses, request);
    WithoutHitTidy(v, request);
    WithoutMissTidy(v.(hits := Without(v.hits, request)), request);
    JoinMiss(v.(hits := Without(v.hits, request), misses := Without(v.misses, request)), s);
  }

  lemma RefreshedHit(v: View, k: nat, matched: RouteIdentity, entry: RouteEntry, expiresAt: nat)
    requires Tidy(v) && k < |v.hits|
    ensures
      var slot := Slot(v.hits[k].identity, expiresAt, Route(v.hits[k].body.subscription, matched, entry));
      && Refresh(v.hits, v.hits[k].identity, matched, entry, expiresAt) == v.hits[k := slot]
      && BySubscription(v.hits[k := slot]) == BySubscription(v.hits)
  {
    RefreshAt(v.hits, k, matched, entry, expiresAt);
    var slot := Slot(v.hits[k].identity, expiresAt, Route(v.hits[k].body.subscription, matched, entry));
    SameSubscriptions(v.hits[k := slot], v.hits);
  }

  lemma UnregisteredBacksNone(line: Line<Route>)
    ensures BySubscription(Unregistered(line)) == map[]
  {
    NoSubscriptions(Unregistered(line));
  }

  lemma WithoutFirst<B>(line: Line<B>)
    requires DistinctIdentities(line) && line != []
    ensures Without(line, line[0].identity) == line[1..] && Find(line, line[0].identity) == Some(line[0])
  {
    WithoutAt(line, 0);
  }

  lemma JoinedFresh(v: View, request: RouteIdentity, incoming: Route)
    requires Tidy(v)
    ensures Find(Unaliased(Without(v.hits, request), incoming.subscription), request) == None
  {
    WithoutExcludes(v.hits, request);
    WithoutHitTidy(v, request);
    UnaliasedTidy(v.(hits := Without(v.hits, request)), incoming.subscription);
  }

  /** A sweep that has already let `gone` go. */
  ghost function Resumed<B>(line: Line<B>, now: nat, limit: nat, gone: Line<B>): Swept<B> {
    var rest := Sweep(line, now, limit);
    Swept(rest.kept, gone + rest.gone)
  }

  lemma SweepRest<B>(line: Line<B>, now: nat, limit: nat, none: Line<B>)
    requires none == []
    ensures Sweep(line, now, limit) == Resumed(line, now, limit, none)
  {
  }

  lemma ResumedTurn<B>(line: Line<B>, now: nat, limit: nat, gone: Line<B>)
    requires limit > 0 && line != [] && line[Earliest(line)].expiresAt <= now && DistinctIdentities(line)
    ensures
      var id := line[Earliest(line)].identity;
      && Find(line, id).Some?
      && Resumed(line, now, limit, gone) == Resumed(Without(line, id), now, limit - 1, gone + [Find(line, id).value])
  {
    hide Sweep, Find, Without, DistinctIdentities;
    SweepTurn(line, now, limit);
    var k := Earliest(line);
    var rest := Sweep(Without(line, line[k].identity), now, limit - 1);
    assert gone + ([line[k]] + rest.gone) == (gone + [line[k]]) + rest.gone;
  }

  lemma ResumedEnd<B>(line: Line<B>, now: nat, limit: nat, gone: Line<B>)
    requires limit == 0 || line == [] || line[Earliest(line)].expiresAt > now
    ensures Resumed(line, now, limit, gone) == Swept(line, gone)
  {
  }

  lemma ExpiredFirst<B>(line: Line<B>, now: nat)
    ensures (exists s :: s in line && s.expiresAt <= now) <==> line != [] && line[Earliest(line)].expiresAt <= now
  {
    if line != [] && line[Earliest(line)].expiresAt <= now {
      assert line[Earliest(line)] in line;
    }
  }

  lemma ForgetHit(v: View, k: nat)
    requires Tidy(v) && k < |v.hits|
    ensures Tidy(v.(hits := RemoveAt(v.hits, k)))
    ensures BySubscription(RemoveAt(v.hits, k)) ==
      if v.hits[k].body.subscription.Some? then BySubscription(v.hits) - {v.hits[k].body.subscription.value}
      else BySubscription(v.hits)
  {
    DropHit(v, k);
    RemovedSubscription(v.hits, k);
  }
}
