/**
 What every operation makes of the two lines, answer by answer: which answers
 stay, in their old order, and which one joins. The descriptions name neither
 the passes an insertion makes nor the way it makes room.
 */
module CacheContents {
  import opened Prelude
  import opened Choosing
  import opened CacheSpec
  import opened CacheLines
  import opened CacheExpiry
  import opened CacheConservation

  // ---- what stays --------------------------------------------------------

  ghost function Surviving<B>(line: Line<B>, now: nat, limit: nat): nat -> bool {
    (k: nat) => k < |line| && Outlives(line, now, limit, k)
  }

  /** A pass keeps exactly the answers that are not due, or have enough due before them. */
  lemma {:induction false} SweepChooses<B>(line: Line<B>, now: nat, limit: nat)
    ensures Sweep(line, now, limit).kept == Chosen(line, Surviving(line, now, limit))
    decreases limit
  {
    hide Sweep, RemoveAt, Rank, Chosen;
    var p := Surviving(line, now, limit);
    if limit == 0 || !SweepsOne(line, now) {
      SweepNone(line, now, limit);
      ChosenAll(line, p);
    } else {
      var e := Earliest(line);
      SweepOne(line, now, limit);
      EarliestRanksFirst(line);
      SweepChooses(RemoveAt(line, e), now, limit - 1);
      ChosenRemove(line, e, p);
      assert Dropped(line, e) == RemoveAt(line, e) by { RemovedIsDropped(line, e); }
      SurvivingShifts(line, now, limit);
      ChosenSame(RemoveAt(line, e), Shifted(p, e), Surviving(RemoveAt(line, e), now, limit - 1));
    }
  }

  lemma SurvivingShifts<B>(line: Line<B>, now: nat, limit: nat)
    requires line != [] && limit > 0
    ensures
      var e := Earliest(line);
      forall i: nat :: i < |line| - 1 ==>
        Shifted(Surviving(line, now, limit), e)(i) == Surviving(RemoveAt(line, e), now, limit - 1)(i)
  {
    hide RemoveAt, Rank, Earliest;
    var e := Earliest(line);
    forall i: nat | i < |line| - 1
      ensures Shifted(Surviving(line, now, limit), e)(i) == Surviving(RemoveAt(line, e), now, limit - 1)(i)
    {
      RankRemove(line, e, if i < e then i else i + 1);
    }
  }

  lemma RemovedIsDropped<T>(s: seq<T>, e: nat)
    requires e < |s|
    ensures Dropped(s, e) == RemoveAt(s, e)
  {
  }

  lemma {:induction false} WithoutAppend<B>(a: Line<B>, b: Line<B>, id: RouteIdentity)
    ensures Without(a + b, id) == Without(a, id) + Without(b, id)
  {
    if a == [] {
      assert a + b == b;
    } else {
      assert (a + b)[1..] == a[1..] + b;
      WithoutAppend(a[1..], b, id);
    }
  }

  lemma {:induction false} WithoutChooses<B>(line: Line<B>, p: nat -> bool, id: RouteIdentity)
    ensures Without(Chosen(line, p), id) ==
      Chosen(line, (k: nat) => k < |line| && p(k) && line[k].identity != id)
  {
    var q := (k: nat) => k < |line| && p(k) && line[k].identity != id;
    if line != [] {
      var n := |line| - 1;
      WithoutChooses(line[..n], p, id);
      var r := (k: nat) => k < |line[..n]| && p(k) && line[..n][k].identity != id;
      ChosenSame(line[..n], q, r);
      WithoutAppend(Chosen(line[..n], p), if p(n) then [line[n]] else [], id);
    }
  }

  /** Dropping the answer an ID backs. */
  lemma UnaliasedChooses(v: View, p: nat -> bool, subscription: Option<SubscriptionId>)
    requires Tidy(v)
    ensures Unaliased(Chosen(v.hits, p), subscription) ==
      Chosen(v.hits, (k: nat) => k < |v.hits| && p(k)
        && (subscription.None? || v.hits[k].body.subscription != subscription))
  {
    hide Chosen, Without;
    var q := (k: nat) => k < |v.hits| && p(k) && (subscription.None? || v.hits[k].body.subscription != subscription);
    var line := Chosen(v.hits, p);
    if subscription.None? || Holder(line, subscription.value).None? {
      forall k: nat | k < |v.hits| ensures p(k) == q(k) {
        ChosenMember(v.hits, p, v.hits[k]);
      }
      ChosenSame(v.hits, p, q);
    } else {
      var id := Holder(line, subscription.value).value;
      WithoutChooses(v.hits, p, id);
      var s :| s in line && s.body.subscription == subscription && s.identity == id;
      ChosenMember(v.hits, p, s);
      var i: nat :| i < |v.hits| && p(i) && v.hits[i] == s;
      var r := (k: nat) => k < |v.hits| && p(k) && v.hits[k].identity != id;
      forall k: nat | k < |v.hits| ensures r(k) == q(k) {
        SameHolder(v, i, k);
      }
      ChosenSame(v.hits, r, q);
    }
  }

  lemma SameHolder(v: View, i: nat, k: nat)
    requires Tidy(v) && i < |v.hits| && k < |v.hits| && v.hits[i].body.subscription.Some?
    ensures v.hits[k].identity == v.hits[i].identity <==> v.hits[k].body.subscription == v.hits[i].body.subscription
  {
    if i < k {
    } else if k < i {
    }
  }

  /** What positive answers leave of a budget. */
  ghost function Remaining(v: View, now: nat, limit: nat): nat { limit - Min(limit, DueCount(v.hits, now)) }

  /** An expiry pass keeps exactly what is not due or not reached, positive answers first, in order. */
  lemma ExpireExactly(v: View, now: nat, limit: nat)
    ensures ExpireLimited(v, now, limit).view ==
      View(v.capacity, Chosen(v.hits, Surviving(v.hits, now, limit)),
           Chosen(v.misses, Surviving(v.misses, now, Remaining(v, now, limit))))
  {
    hide Chosen, Sweep, DueCount, Surviving;
    SweepCount(v.hits, now, limit);
    SweepChooses(v.hits, now, limit);
    SweepChooses(v.misses, now, Remaining(v, now, limit));
  }

  // ---- insertions --------------------------------------------------------

  /** What is left of an insertion's budget for negative answers. */
  ghost function MissBudget(v: View, now: nat): nat { Remaining(v, now, INSERT_EXPIRY_BUDGET) }

  /** It survives the expiry pass, answers another identity, and is not backed by the incoming ID. */
  ghost predicate StaysBy(v: View, request: RouteIdentity, incoming: Route, now: nat, k: nat)
    requires k < |v.hits|
  {
    && Spared(v, now, k) && v.hits[k].identity != request
    && (incoming.subscription.None? || v.hits[k].body.subscription != incoming.subscription)
  }

  ghost function Staying(v: View, request: RouteIdentity, incoming: Route, now: nat): nat -> bool {
    (k: nat) => k < |v.hits| && StaysBy(v, request, incoming, now, k)
  }

  lemma OthersStay(v: View, request: RouteIdentity, incoming: Route, now: nat)
    requires WellFormed(v)
    ensures
      var swept := ExpireLimited(v, now, INSERT_EXPIRY_BUDGET).view;
      Unaliased(Without(swept.hits, request), incoming.subscription) ==
        Chosen(v.hits, Staying(v, request, incoming, now))
  {
    hide Chosen, Without, Unaliased, ExpireLimited, Rank;
    var p := Surviving(v.hits, now, INSERT_EXPIRY_BUDGET);
    var q := (k: nat) => k < |v.hits| && p(k) && v.hits[k].identity != request;
    var sub := incoming.subscription;
    var r := (k: nat) => k < |v.hits| && q(k) && (sub.None? || v.hits[k].body.subscription != sub);
    ExpireExactly(v, now, INSERT_EXPIRY_BUDGET);
    WithoutChooses(v.hits, p, request);
    UnaliasedChooses(v, q, sub);
    ChosenSame(v.hits, r, Staying(v, request, incoming, now));
  }

  /** The newest within capacity, the new answer among them. */
  lemma RoomMade<B>(line: Line<B>, p: nat -> bool, s: Slot<B>, room: nat)
    ensures
      var full := Chosen(line, p) + [s];
      full[Over(full, room + 1)..] == Chosen(line, Among(p, room, |line|)) + [s]
  {
    hide Chosen, Among, Over, Last;
    OverIsLast(Chosen(line, p) + [s], room + 1);
    LastAmong(line, p, s, room);
  }

  lemma OverIsLast<B>(line: Line<B>, capacity: nat)
    ensures line[Over(line, capacity)..] == Last(line, capacity)
  {
  }

  /**
   An accepted insertion: it joins the end of the line, unless the cache holds
   nothing at all. Of the others exactly those stay, in their order, that
   survive the expiry pass, are neither the request's nor backed by the incoming
   ID, and have fewer than capacity - 1 such answers after them. The negative
   answer of the request goes, and of the others those that are due and reached.
   */
  lemma InsertExactly(v: View, request: RouteIdentity, incoming: Route, expiresAt: nat, now: nat)
    requires WellFormed(v) && !MeetsNewer(v, request, incoming, now)
    ensures
      var out := InsertResolved(v, request, incoming, expiresAt, now).view;
      var stay := Staying(v, request, incoming, now);
      && out.capacity == v.capacity
      && (v.capacity == 0 ==> out.hits == [])
      && (v.capacity > 0 ==>
            out.hits == Chosen(v.hits, Among(stay, v.capacity - 1, |v.hits|)) + [Slot(request, expiresAt, incoming)])
      && out.misses == Chosen(v.misses, (k: nat) =>
           k < |v.misses| && Outlives(v.misses, now, MissBudget(v, now), k) && v.misses[k].identity != request)
  {
    hide Chosen, Without, Unaliased, ExpireLimited, Rank, MeetsNewer, WellFormed, Among, Staying, Over;
    var swept := ExpireLimited(v, now, INSERT_EXPIRY_BUDGET).view;
    RefusedExactly(v, request, incoming, now);
    OthersStay(v, request, incoming, now);
    if v.capacity == 0 {
      OverIsLast(Chosen(v.hits, Staying(v, request, incoming, now)) + [Slot(request, expiresAt, incoming)], 0);
    } else {
      RoomMade(v.hits, Staying(v, request, incoming, now), Slot(request, expiresAt, incoming), v.capacity - 1);
    }
    ExpireExactly(v, now, INSERT_EXPIRY_BUDGET);
    var p := Surviving(v.misses, now, MissBudget(v, now));
    WithoutChooses(v.misses, p, request);
    var q := (k: nat) => k < |v.misses| && p(k) && v.misses[k].identity != request;
    var r := (k: nat) =>
      k < |v.misses| && Outlives(v.misses, now, MissBudget(v, now), k) && v.misses[k].identity != request;
    ChosenSame(v.misses, q, r);
  }

  /** A refused insertion: only expiry takes place, and the newer answer goes too if no stream backs it. */
  lemma RefusalExactly(v: View, request: RouteIdentity, incoming: Route, expiresAt: nat, now: nat)
    requires WellFormed(v) && MeetsNewer(v, request, incoming, now)
    ensures
      var out := InsertResolved(v, request, incoming, expiresAt, now).view;
      && out.capacity == v.capacity
      && out.hits == Chosen(v.hits, (k: nat) =>
           k < |v.hits| && Spared(v, now, k)
           && !(v.hits[k].identity == request && v.hits[k].body.subscription.None?))
      && out.misses == Chosen(v.misses, Surviving(v.misses, now, MissBudget(v, now)))
  {
    hide Chosen, Without, ExpireLimited, Rank, WellFormed, Find;
    var swept := ExpireLimited(v, now, INSERT_EXPIRY_BUDGET).view;
    RefusedExactly(v, request, incoming, now);
    ExpireExactly(v, now, INSERT_EXPIRY_BUDGET);
    var p := Surviving(v.hits, now, INSERT_EXPIRY_BUDGET);
    var q := (k: nat) => k < |v.hits| && Spared(v, now, k)
      && !(v.hits[k].identity == request && v.hits[k].body.subscription.None?);
    var newer :| 0 <= newer < |v.hits| && v.hits[newer].identity == request
      && StaleRouteEntry(v.hits[newer].body.entry, incoming.entry).Some? && Spared(v, now, newer);
    SurvivorFound(v, now, newer);
    forall k: nat | k < |v.hits| && k != newer ensures v.hits[k].identity != request {
      OneOfEach(v, k, newer);
    }
    if v.hits[newer].body.subscription.None? {
      WithoutChooses(v.hits, p, request);
      var r := (k: nat) => k < |v.hits| && p(k) && v.hits[k].identity != request;
      ChosenSame(v.hits, r, q);
    } else {
      ChosenSame(v.hits, p, q);
    }
  }

  lemma OneOfEach(v: View, i: nat, k: nat)
    requires WellFormed(v) && i < |v.hits| && k < |v.hits| && i != k
    ensures v.hits[i].identity != v.hits[k].identity
  {
  }

  ghost function StayingMiss(v: View, request: RouteIdentity, now: nat): nat -> bool {
    (k: nat) => k < |v.misses| && Outlives(v.misses, now, MissBudget(v, now), k) && v.misses[k].identity != request
  }

  /** The same for a negative insertion, whose answer is good for `ttl` from now. */
  lemma NegativeExactly(v: View, request: RouteIdentity, ttl: nat, now: nat)
    ensures
      var out := InsertNegative(v, request, ttl, now).view;
      && out.capacity == v.capacity
      && (v.capacity == 0 ==> out.misses == [])
      && (v.capacity > 0 ==>
            out.misses == Chosen(v.misses, Among(StayingMiss(v, request, now), v.capacity - 1, |v.misses|))
              + [Slot(request, now + ttl, Nothing)])
      && out.hits == Chosen(v.hits, (k: nat) => k < |v.hits| && Spared(v, now, k) && v.hits[k].identity != request)
  {
    hide Chosen, Without, ExpireLimited, Rank, Among, Over;
    ExpireExactly(v, now, INSERT_EXPIRY_BUDGET);
    var p, m := Surviving(v.hits, now, INSERT_EXPIRY_BUDGET), Surviving(v.misses, now, MissBudget(v, now));
    WithoutChooses(v.hits, p, request);
    WithoutChooses(v.misses, m, request);
    var q := (k: nat) => k < |v.misses| && m(k) && v.misses[k].identity != request;
    ChosenSame(v.misses, q, StayingMiss(v, request, now));
    var r, t := (k: nat) => k < |v.hits| && p(k) && v.hits[k].identity != request,
      (k: nat) => k < |v.hits| && Spared(v, now, k) && v.hits[k].identity != request;
    ChosenSame(v.hits, r, t);
    if v.capacity == 0 {
      OverIsLast(Chosen(v.misses, StayingMiss(v, request, now)) + [Slot(request, now + ttl, Nothing)], 0);
    } else {
      RoomMade(v.misses, StayingMiss(v, request, now), Slot(request, now + ttl, Nothing), v.capacity - 1);
    }
  }

  /** Answer by answer: what an accepted insertion leaves of another identity's answer. */
  lemma InsertKeeps(v: View, request: RouteIdentity, incoming: Route, expiresAt: nat, now: nat, k: nat)
    requires WellFormed(v) && !MeetsNewer(v, request, incoming, now) && k < |v.hits|
    ensures
      var out := InsertResolved(v, request, incoming, expiresAt, now).view;
      v.hits[k].identity != request ==>
        Find(out.hits, v.hits[k].identity) ==
          if StaysBy(v, request, incoming, now, k)
             && CountIn(Staying(v, request, incoming, now), k + 1, |v.hits|) < v.capacity - 1
          then Some(v.hits[k]) else None
  {
    hide Chosen, Rank, MeetsNewer, InsertResolved, StaysBy, CountIn, Find;
    var out := InsertResolved(v, request, incoming, expiresAt, now).view;
    var among := Among(Staying(v, request, incoming, now), v.capacity - 1, |v.hits|);
    InsertExactly(v, request, incoming, expiresAt, now);
    if v.hits[k].identity != request {
      forall s | s in Chosen(v.hits, among) && s.identity == v.hits[k].identity ensures s == v.hits[k] && among(k) {
        ChosenMember(v.hits, among, s);
        var i: nat :| i < |v.hits| && among(i) && v.hits[i] == s;
        if i != k {
          OneOfEach(v, i, k);
        }
      }
      ChosenMember(v.hits, among, v.hits[k]);
    }
  }

  /** Nothing else leaves while there is room. */
  lemma InsertSpares(v: View, request: RouteIdentity, incoming: Route, expiresAt: nat, now: nat, k: nat)
    requires WellFormed(v) && !MeetsNewer(v, request, incoming, now) && k < |v.hits|
    requires |v.hits| < v.capacity && StaysBy(v, request, incoming, now, k)
    ensures Find(InsertResolved(v, request, incoming, expiresAt, now).view.hits, v.hits[k].identity) == Some(v.hits[k])
  {
    hide Find, InsertResolved, MeetsNewer, WellFormed, Rank;
    InsertKeeps(v, request, incoming, expiresAt, now, k);
    CountWithin(Staying(v, request, incoming, now), k + 1, |v.hits|);
  }

  lemma CountWithin(p: nat -> bool, from: nat, end: nat)
    requires from <= end
    ensures CountIn(p, from, end) <= end - from
    decreases end
  {
    if from < end {
      CountWithin(p, from, end - 1);
    }
  }

  // ---- lookups -----------------------------------------------------------

  /** What a lookup says, by what the lines hold. */
  lemma LookupExactly(v: View, id: RouteIdentity, now: nat)
    requires WellFormed(v)
    ensures forall s :: LookupAt(v, id, now) == Positive(s) <==> s in v.hits && s.identity == id && now < s.expiresAt
    ensures forall s :: LookupAt(v, id, now) == Negative(s) <==> s in v.misses && s.identity == id && now < s.expiresAt
    ensures LookupAt(v, id, now) == Expired <==>
      || (exists s :: s in v.hits && s.identity == id && s.expiresAt <= now)
      || (exists s :: s in v.misses && s.identity == id && s.expiresAt <= now)
    ensures LookupAt(v, id, now) == Absent <==>
      (forall s :: s in v.hits ==> s.identity != id) && (forall s :: s in v.misses ==> s.identity != id)
  {
    hide Find;
    var hit := WithoutCases(v.hits, id);
    var miss := WithoutCases(v.misses, id);
    forall s | s in v.hits && s.identity == id ensures Find(v.hits, id) == Some(s) {
      var i :| 0 <= i < |v.hits| && v.hits[i] == s;
      FindAt(v.hits, i);
    }
    forall s | s in v.misses && s.identity == id ensures Find(v.misses, id) == Some(s) {
      var i :| 0 <= i < |v.misses| && v.misses[i] == s;
      FindAt(v.misses, i);
    }
  }

  /** At any point of any run, a negative answer just inserted is given exactly until its time is up. */
  lemma NegativeLasts(capacity: nat, ops: seq<Op>, request: RouteIdentity, ttl: nat, now: nat, t: nat)
    requires capacity > 0
    ensures
      var v := Run(Empty(capacity), ops + [OpInsertNegative(request, ttl, now)]).view;
      LookupAt(v, request, t) == if t < now + ttl then Negative(Slot(request, now + ttl, Nothing)) else Expired
  {
    hide Run, Step, LookupAt, InsertNegative, Chosen, StayingMiss;
    var op := OpInsertNegative(request, ttl, now);
    var before, v := Run(Empty(capacity), ops).view, Run(Empty(capacity), ops + [op]).view;
    RunEnd(capacity, ops, op);
    RunWellFormed(capacity, ops);
    RunWellFormed(capacity, ops + [op]);
    NegativeExactly(before, request, ttl, now);
    assert v.misses[|v.misses| - 1] == Slot(request, now + ttl, Nothing);
    LookupExactly(v, request, t);
    OnlyAnswer(v, request, |v.misses| - 1);
  }

  lemma RunEnd(capacity: nat, ops: seq<Op>, op: Op)
    ensures Run(Empty(capacity), ops + [op]).view == Step(Run(Empty(capacity), ops).view, op).view
    ensures op.OpInsertNegative? ==>
      Step(Run(Empty(capacity), ops).view, op).view ==
        InsertNegative(Run(Empty(capacity), ops).view, op.request, op.ttl, op.now).view
    ensures op.OpInsertResolved? ==>
      Step(Run(Empty(capacity), ops).view, op).view ==
        InsertResolved(Run(Empty(capacity), ops).view, op.request, op.incoming, op.expiresAt, op.now).view
  {
    hide InsertNegative, InsertResolved;
    assert (ops + [op])[..|ops|] == ops;
  }

  lemma OnlyAnswer(v: View, id: RouteIdentity, k: nat)
    requires WellFormed(v) && k < |v.misses| && v.misses[k].identity == id
    ensures forall s :: s in v.misses && s.identity == id ==> s == v.misses[k]
    ensures forall s :: s in v.hits ==> s.identity != id
  {
  }

  /** The same for an answer just accepted. */
  lemma AnswerLasts(capacity: nat, ops: seq<Op>, request: RouteIdentity, incoming: Route, expiresAt: nat, now: nat,
                    t: nat)
    requires capacity > 0 && !MeetsNewer(Run(Empty(capacity), ops).view, request, incoming, now)
    ensures
      var v := Run(Empty(capacity), ops + [OpInsertResolved(request, incoming, expiresAt, now)]).view;
      LookupAt(v, request, t) == if t < expiresAt then Positive(Slot(request, expiresAt, incoming)) else Expired
  {
    hide Run, Step, LookupAt, InsertResolved, Chosen, Staying, MeetsNewer;
    var op := OpInsertResolved(request, incoming, expiresAt, now);
    var before, v := Run(Empty(capacity), ops).view, Run(Empty(capacity), ops + [op]).view;
    RunEnd(capacity, ops, op);
    RunWellFormed(capacity, ops);
    RunWellFormed(capacity, ops + [op]);
    InsertExactly(before, request, incoming, expiresAt, now);
    assert v.hits[|v.hits| - 1] == Slot(request, expiresAt, incoming);
    LookupExactly(v, request, t);
    OnlyHit(v, request, |v.hits| - 1);
  }

  lemma OnlyHit(v: View, id: RouteIdentity, k: nat)
    requires WellFormed(v) && k < |v.hits| && v.hits[k].identity == id
    ensures forall s :: s in v.hits && s.identity == id ==> s == v.hits[k]
    ensures forall s :: s in v.misses ==> s.identity != id
  {
  }

  // ---- messages ----------------------------------------------------------

  /**
   An update under an ID: if the ID backs an answer that is not newer, exactly
   that answer carries the new entry, good for `ttl` from now, in its old place
   and under its old ID; nothing else changes.
   */
  lemma UpdateExactly(v: View, id: SubscriptionId, matched: RouteIdentity, entry: RouteEntry, ttl: nat, now: nat)
    requires WellFormed(v)
    ensures
      var out := ApplyUpdate(v, id, matched, entry, ttl, now);
      && out.capacity == v.capacity && out.misses == v.misses && |out.hits| == |v.hits|
      && forall k :: 0 <= k < |v.hits| ==>
           out.hits[k] ==
             if v.hits[k].body.subscription == Some(id) && NotOlder(v.hits[k].body.entry, entry)
             then Slot(v.hits[k].identity, now + ttl, Route(Some(id), matched, entry)) else v.hits[k]
  {
    hide Find, Holder;
    if Holder(v.hits, id).Some? {
      var s :| s in v.hits && s.body.subscription == Some(id) && s.identity == Holder(v.hits, id).value;
      var i :| 0 <= i < |v.hits| && v.hits[i] == s;
      FindAt(v.hits, i);
      forall k | 0 <= k < |v.hits|
        ensures v.hits[k].identity == v.hits[i].identity <==> v.hits[k].body.subscription == Some(id)
      {
        SameHolder(v, i, k);
      }
    }
  }

  /** A replacement does so whatever the generations say. */
  lemma ReplaceExactly(v: View, id: SubscriptionId, matched: RouteIdentity, entry: RouteEntry, ttl: nat, now: nat)
    requires WellFormed(v)
    ensures
      var out := ReplaceSubscription(v, id, matched, entry, ttl, now);
      && out.capacity == v.capacity && out.misses == v.misses && |out.hits| == |v.hits|
      && forall k :: 0 <= k < |v.hits| ==>
           out.hits[k] ==
             if v.hits[k].body.subscription == Some(id)
             then Slot(v.hits[k].identity, now + ttl, Route(Some(id), matched, entry)) else v.hits[k]
  {
    hide Find, Holder;
    if Holder(v.hits, id).Some? {
      var s :| s in v.hits && s.body.subscription == Some(id) && s.identity == Holder(v.hits, id).value;
      var i :| 0 <= i < |v.hits| && v.hits[i] == s;
      forall k | 0 <= k < |v.hits|
        ensures v.hits[k].identity == v.hits[i].identity <==> v.hits[k].body.subscription == Some(id)
      {
        SameHolder(v, i, k);
      }
    }
  }

  /**
   A finished wake: the answer of its identity carries the ready entry if that
   is not older, keeps its ID and place, and is good until the cached answer's
   deadline, or is due at once if that has passed.
   */
  lemma ReadyWakeExactly(v: View, cached: Slot<Route>, ready: RouteEntry, now: nat)
    requires WellFormed(v)
    ensures
      var out := ApplyReadyWake(v, cached, ready, now);
      && out.capacity == v.capacity && out.misses == v.misses && |out.hits| == |v.hits|
      && forall k :: 0 <= k < |v.hits| ==>
           out.hits[k] ==
             if v.hits[k].identity == cached.identity && NotOlder(v.hits[k].body.entry, ready)
             then Slot(cached.identity, Max(cached.expiresAt, now),
               Route(v.hits[k].body.subscription, cached.body.matched, ready))
             else v.hits[k]
  {
    hide Find;
    var i := WithoutCases(v.hits, cached.identity);
    if i < |v.hits| {
      forall k | 0 <= k < |v.hits| && k != i ensures v.hits[k].identity != cached.identity {
        OneOfEach(v, k, i);
      }
    }
  }

  /** Invalidating an ID drops exactly the answer it backs; a request, exactly its answer. */
  lemma InvalidateExactly(v: View, id: SubscriptionId, request: RouteIdentity)
    requires WellFormed(v)
    ensures InvalidateSubscription(v, id) ==
      v.(hits := Chosen(v.hits, (k: nat) => k < |v.hits| && v.hits[k].body.subscription != Some(id)))
    ensures InvalidateRequest(v, request).view ==
      v.(hits := Chosen(v.hits, (k: nat) => k < |v.hits| && v.hits[k].identity != request))
  {
    hide Chosen, Without, Unaliased;
    var all := (k: nat) => true;
    ChosenAll(v.hits, all);
    UnaliasedChooses(v, all, Some(id));
    WithoutChooses(v.hits, all, request);
    var p := (k: nat) => k < |v.hits| && all(k) && (Some(id).None? || v.hits[k].body.subscription != Some(id));
    var q := (k: nat) => k < |v.hits| && v.hits[k].body.subscription != Some(id);
    ChosenSame(v.hits, p, q);
    var r := (k: nat) => k < |v.hits| && all(k) && v.hits[k].identity != request;
    var t := (k: nat) => k < |v.hits| && v.hits[k].identity != request;
    ChosenSame(v.hits, r, t);
  }

  /** Exactly the answers that no stream backs and that are still good need to be registered again. */
  lemma NeedsExactly(v: View, id: RouteIdentity, now: nat)
    requires WellFormed(v)
    ensures NeedsReregistration(v, id, now) <==>
      exists s :: s in v.hits && s.identity == id && s.body.subscription.None? && now < s.expiresAt
  {
    hide Find;
    if s :| s in v.hits && s.identity == id && s.body.subscription.None? && now < s.expiresAt {
      var i :| 0 <= i < |v.hits| && v.hits[i] == s;
      FindAt(v.hits, i);
    }
  }
}
