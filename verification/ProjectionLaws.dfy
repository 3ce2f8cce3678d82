/** Which requests a projection and a teardown make, by what was seen, and what becomes of an object they land on. */
module ProjectionLaws {
  import opened Prelude
  import opened Choosing
  import opened Manifests
  import opened Stamps
  import opened Planning
  import opened Plans
  import opened Cluster
  import opened Projection
  import opened Teardown

  // ---- applies -----------------------------------------------------------

  lemma {:induction false} NotedAt(observations: seq<Observation>, i: nat)
    requires i < |observations|
    requires forall j :: 0 <= j < i ==> observations[j].objectRef != observations[i].objectRef
    ensures Noted(observations, observations[i].objectRef) == Some(observations[i])
  {
    if i > 0 {
      assert observations[0].objectRef != observations[i].objectRef;
      NotedAt(observations[1..], i - 1);
    }
  }

  /** The observation on record for a planned object is what was seen of it. */
  lemma NotedSeen(plan: ProjectionPlan, seen: Sightings, i: nat)
    requires |seen| == |plan.objects| && Distinct(PlanRefs(plan)) && i < |seen|
    ensures Noted(Observations(plan.objects, seen), plan.objects[i].objectRef) ==
      Some(Classify(plan.objects[i], seen[i]))
  {
    hide Classify, Noted;
    var observations := Observations(plan.objects, seen);
    forall j | 0 <= j <= i ensures observations[j].objectRef == PlanRefs(plan)[j] {
      ClassifiesItsOwn(plan.objects[j], seen[j]);
    }
    NotedAt(observations, i);
  }

  /** An object is created if it was not seen, and patched in exactly the version seen otherwise. */
  lemma RequestExactly(plan: ProjectionPlan, seen: Sightings, x: ManifestObject, i: nat)
    requires |seen| == |plan.objects| && Distinct(PlanRefs(plan)) && i < |seen|
    requires plan.objects[i].objectRef == RefOf(x.resource)
    ensures RequestFor(x, Observations(plan.objects, seen), plan) ==
      Request(
        if seen[i].Some? then Patch(RefOf(x.resource), x.resource, seen[i].value.identity)
        else Create(RefOf(x.resource), x.resource),
        plan)
  {
    hide Observations, Noted, PlanRefs, RefOf;
    NotedSeen(plan, seen, i);
  }

  // ---- deletes -----------------------------------------------------------

  /** The object was seen standing, in this version, and is the plan's to delete. */
  ghost predicate Wanted(plan: ProjectionPlan, seen: Sightings, i: nat)
    requires i < |plan.objects| == |seen|
  {
    seen[i].Some? && Owns(plan.objects[i].expected, seen[i].value.tags) && !seen[i].value.deleting
  }

  lemma DeleteRequestExactly(plan: ProjectionPlan, seen: Sightings, i: nat)
    requires |seen| == |plan.objects| && Distinct(PlanRefs(plan)) && i < |seen|
    requires Identified(Observations(plan.objects, seen))
    ensures DeleteRequest(plan.objects[i].objectRef, Observations(plan.objects, seen), plan) ==
      if Wanted(plan, seen, i)
      then Some(Request(Delete(plan.objects[i].objectRef, seen[i].value.identity), plan)) else None
  {
    hide Noted, PlanRefs, Owns, OwnershipMismatch;
    NotedSeen(plan, seen, i);
  }

  /** The request for the `k`-th reference in line. */
  ghost predicate WantedAt(plan: ProjectionPlan, seen: Sightings, targets: seq<ObjectRef>, k: nat)
    requires |seen| == |plan.objects| && k < |targets|
  {
    exists i :: 0 <= i < |seen| && plan.objects[i].objectRef == targets[k] && Wanted(plan, seen, i)
  }

  ghost function Wanting(plan: ProjectionPlan, seen: Sightings, targets: seq<ObjectRef>): nat -> bool
    requires |seen| == |plan.objects|
  {
    (k: nat) => k < |targets| && WantedAt(plan, seen, targets, k)
  }

  lemma TargetWanted(plan: ProjectionPlan, seen: Sightings, targets: seq<ObjectRef>, k: nat) returns (i: nat)
    requires |seen| == |plan.objects| && Distinct(PlanRefs(plan)) && k < |targets| && targets[k] in PlanRefs(plan)
    requires Identified(Observations(plan.objects, seen))
    ensures i < |seen| && plan.objects[i].objectRef == targets[k]
    ensures WantedAt(plan, seen, targets, k) <==> Wanted(plan, seen, i)
    ensures DeleteRequest(targets[k], Observations(plan.objects, seen), plan) ==
      if Wanted(plan, seen, i) then Some(Request(Delete(targets[k], seen[i].value.identity), plan)) else None
  {
    hide Wanted, Observations, DeleteRequest, PlanRefs, Distinct, Identified;
    i := PlannedAt(plan, targets[k]);
    DeleteRequestExactly(plan, seen, i);
    if j :| 0 <= j < |seen| && plan.objects[j].objectRef == targets[k] && Wanted(plan, seen, j) {
      PlannedOnce(plan, i, j);
    }
  }

  lemma PlannedAt(plan: ProjectionPlan, r: ObjectRef) returns (i: nat)
    requires r in PlanRefs(plan)
    ensures i < |plan.objects| && plan.objects[i].objectRef == r
  {
    i :| 0 <= i < |PlanRefs(plan)| && PlanRefs(plan)[i] == r;
  }

  lemma PlannedOnce(plan: ProjectionPlan, i: nat, j: nat)
    requires Distinct(PlanRefs(plan)) && i < |plan.objects| && j < |plan.objects|
    requires plan.objects[i].objectRef == plan.objects[j].objectRef
    ensures i == j
  {
    assert PlanRefs(plan)[i] == PlanRefs(plan)[j];
  }

  /** The requests made are those for the objects wanted, in the order of their references, once each. */
  lemma {:induction false} DeletesInOrder(plan: ProjectionPlan, seen: Sightings, targets: seq<ObjectRef>)
    requires |seen| == |plan.objects| && Distinct(PlanRefs(plan))
    requires forall k :: 0 <= k < |targets| ==> targets[k] in PlanRefs(plan)
    requires Identified(Observations(plan.objects, seen))
    ensures AttemptRefs(DeleteRequests(targets, Observations(plan.objects, seen), plan)) ==
      Chosen(targets, Wanting(plan, seen, targets))
  {
    hide Wanted, WantedAt, Observations, DeleteRequest, Distinct, PlanRefs;
    if targets != [] {
      hide DeleteRequests, Chosen, AttemptRefs, AttemptOf;
      var n := |targets| - 1;
      assert targets[..n + 1] == targets;
      RequestsGrow(targets, n, Observations(plan.objects, seen), plan);
      ChosenStep(targets, Wanting(plan, seen, targets));
      DeletesInOrder(plan, seen, targets[..n]);
      SameWanted(plan, seen, targets, n);
      var i := TargetWanted(plan, seen, targets, n);
      LastAttempt(DeleteRequests(targets[..n], Observations(plan.objects, seen), plan),
        DeleteRequest(targets[n], Observations(plan.objects, seen), plan));
    }
  }

  lemma SameWanted(plan: ProjectionPlan, seen: Sightings, targets: seq<ObjectRef>, n: nat)
    requires |seen| == |plan.objects| && n <= |targets|
    ensures Chosen(targets[..n], Wanting(plan, seen, targets)) ==
      Chosen(targets[..n], Wanting(plan, seen, targets[..n]))
  {
    hide Wanted, Chosen;
    forall k: nat | k < n ensures Wanting(plan, seen, targets)(k) == Wanting(plan, seen, targets[..n])(k) {
      assert targets[..n][k] == targets[k];
    }
    ChosenSame(targets[..n], Wanting(plan, seen, targets), Wanting(plan, seen, targets[..n]));
  }

  lemma LastAttempt(events: seq<Event>, r: Option<Request>)
    ensures AttemptRefs(events + AttemptOf(r)) ==
      AttemptRefs(events) + if r.Some? then [r.value.effect.target] else []
  {
    AttemptRefsAppend(events, AttemptOf(r));
    if r.Some? {
      assert [Attempted(r.value)][..0] == [];
    }
  }

  lemma {:induction false} DeleteAmong(targets: seq<ObjectRef>, observations: seq<Observation>, plan: ProjectionPlan,
                                       r: Request)
    requires Identified(observations)
    ensures Attempted(r) in DeleteRequests(targets, observations, plan) <==>
      exists k :: 0 <= k < |targets| && DeleteRequest(targets[k], observations, plan) == Some(r)
  {
    hide DeleteRequest, DeleteRequests;
    if targets == [] {
      NoRequests(observations, plan);
    } else {
      var n := |targets| - 1;
      DeleteAmong(targets[..n], observations, plan, r);
      assert targets[..n + 1] == targets;
      RequestsGrow(targets, n, observations, plan);
      AskedBefore(targets, n, observations, plan, r);
    }
  }

  lemma AskedBefore(targets: seq<ObjectRef>, n: nat, observations: seq<Observation>, plan: ProjectionPlan, r: Request)
    requires |targets| == n + 1 && Identified(observations)
    ensures
      (exists k :: 0 <= k < |targets| && DeleteRequest(targets[k], observations, plan) == Some(r)) <==>
      || (exists k :: 0 <= k < n && DeleteRequest(targets[..n][k], observations, plan) == Some(r))
      || DeleteRequest(targets[n], observations, plan) == Some(r)
  {
    hide DeleteRequest;
    if k :| 0 <= k < n && DeleteRequest(targets[..n][k], observations, plan) == Some(r) {
      assert targets[k] == targets[..n][k];
    }
    if k :| 0 <= k < |targets| && DeleteRequest(targets[k], observations, plan) == Some(r) {
      if k < n {
        assert targets[..n][k] == targets[k];
      }
    }
  }

  /** The delete order holds every planned reference, once. */
  lemma OrderHolds(plan: ProjectionPlan)
    requires Distinct(PlanRefs(plan))
    ensures
      var order := DeleteOrder(PlanRefs(plan));
      && Distinct(order) && (forall k :: 0 <= k < |order| ==> order[k] in PlanRefs(plan))
      && (forall i :: 0 <= i < |plan.objects| ==> plan.objects[i].objectRef in order)
  {
    hide DeleteOrder;
    var refs, order := PlanRefs(plan), DeleteOrder(PlanRefs(plan));
    DeleteOrderPermutes(refs);
    RearrangedDistinct(refs, order);
    forall k | 0 <= k < |order| ensures order[k] in refs {
      assert order[k] in multiset(order);
    }
    forall i | 0 <= i < |plan.objects| ensures plan.objects[i].objectRef in order {
      assert refs[i] in multiset(refs);
    }
  }

  /** For exactly the versions seen standing and owned, some reference in line makes the request. */
  lemma AskedExactly(plan: ProjectionPlan, seen: Sightings, order: seq<ObjectRef>, r: Request)
    requires |seen| == |plan.objects| && Distinct(PlanRefs(plan)) && Identified(Observations(plan.objects, seen))
    requires forall k :: 0 <= k < |order| ==> order[k] in PlanRefs(plan)
    requires forall i :: 0 <= i < |plan.objects| ==> plan.objects[i].objectRef in order
    ensures
      (exists k :: 0 <= k < |order| && DeleteRequest(order[k], Observations(plan.objects, seen), plan) == Some(r)) <==>
      exists i :: 0 <= i < |seen| && Wanted(plan, seen, i)
        && r == Request(Delete(plan.objects[i].objectRef, seen[i].value.identity), plan)
  {
    hide Observations, DeleteRequest, PlanRefs, Distinct, Owns;
    if k :| 0 <= k < |order| && DeleteRequest(order[k], Observations(plan.objects, seen), plan) == Some(r) {
      var i := TargetWanted(plan, seen, order, k);
    }
    if i :| 0 <= i < |seen| && Wanted(plan, seen, i)
            && r == Request(Delete(plan.objects[i].objectRef, seen[i].value.identity), plan) {
      DeleteRequestExactly(plan, seen, i);
      var k :| 0 <= k < |order| && order[k] == plan.objects[i].objectRef;
      assert DeleteRequest(order[k], Observations(plan.objects, seen), plan) == Some(r);
    }
  }

  /**
   A completed deletion asks for exactly the versions it saw standing and owns:
   nothing it owns is passed over and nothing else is asked for. It asks in
   delete order, once each.
   */
  lemma DeletesExactly(plan: ProjectionPlan, seen: Sightings, r: Request)
    requires |seen| == |plan.objects| && Distinct(PlanRefs(plan)) && Identified(Observations(plan.objects, seen))
    ensures
      var order := DeleteOrder(PlanRefs(plan));
      var requests := DeleteRequests(order, Observations(plan.objects, seen), plan);
      && (Attempted(r) in requests <==>
            exists i :: 0 <= i < |seen| && Wanted(plan, seen, i)
              && r == Request(Delete(plan.objects[i].objectRef, seen[i].value.identity), plan))
      && AttemptRefs(requests) == Chosen(order, Wanting(plan, seen, order)) && Distinct(order)
  {
    hide Wanted, Observations, DeleteRequest, DeleteRequests, DeleteOrder, Chosen, Wanting, PlanRefs, AttemptRefs;
    hide Distinct;
    var order := DeleteOrder(PlanRefs(plan));
    OrderHolds(plan);
    DeletesInOrder(plan, seen, order);
    DeleteAmong(order, Observations(plan.objects, seen), plan, r);
    AskedExactly(plan, seen, order, r);
  }

  // ---- what an effect makes of its object --------------------------------

  /** Whoever owns the tags of a body that carries a whole stamp owns what the body is merged into. */
  lemma MergedIsOwned(expected: ExpectedStamp, live: LiveObject, body: KubernetesObject)
    requires Owns(expected, body.metadata.tags)
    requires expected.renderedHash.Some? ==> ANNOTATION_RENDERED_HASH in body.metadata.tags.annotations
    ensures Owns(expected, Patched(live, body).tags)
  {
  }

  /** Whatever stood there before, a stamped object that lands is its plan's, and says what its manifest says. */
  lemma LandedIsOwned(w: World, m: Materialization, manifest: Manifest, render: Renderer, i: nat, e: Effect)
    requires Plannable(m, manifest) && i < |PlanOf(m, manifest, render).objects|
    requires
      var x := Ordered(PlanOf(m, manifest, render).manifest.value.objects);
      && i < |x| && Meets(w, e) == Landed && !e.Delete?
      && e.target == RefOf(x[i].resource) && e.body == x[i].resource
    ensures
      var planned := PlanOf(m, manifest, render).objects[i];
      var live := LookIn(After(w, e), e.target);
      && planned.objectRef == e.target && live.Some? && Owns(planned.expected, live.value.tags)
      && (forall k :: k in e.body.metadata.tags.labels ==>
            Tag(live.value.tags.labels, k) == Some(e.body.metadata.tags.labels[k]))
      && (forall k :: k in e.body.metadata.tags.annotations ==>
            Tag(live.value.tags.annotations, k) == Some(e.body.metadata.tags.annotations[k]))
      && (e.Create? ==> !live.value.deleting && live.value.reclaimPolicy == Policy(e.body))
      && (e.Patch? ==>
            && live.value.deleting == w.objects[e.target].deleting
            && live.value.identity.uid == w.objects[e.target].identity.uid)
  {
    hide Ordered, Owns, RefOf, Plannable, Stamped, StampAll, PlanObjects;
    PlanIsFaithful(m, manifest, render);
    PlansItsOwn(m, manifest, render, i);
    if e.Patch? {
      MergedIsOwned(PlanOf(m, manifest, render).objects[i].expected, w.objects[e.target], e.body);
    }
  }

  lemma PlansItsOwn(m: Materialization, manifest: Manifest, render: Renderer, i: nat)
    requires Plannable(m, manifest)
    requires i < |PlanOf(m, manifest, render).objects|
    ensures
      var plan := PlanOf(m, manifest, render);
      var x := Ordered(plan.manifest.value.objects);
      && i < |x| && plan.objects[i].objectRef == RefOf(x[i].resource)
      && ANNOTATION_RENDERED_HASH in x[i].resource.metadata.tags.annotations
  {
    hide Ordered, Stamped, RefOf;
    var plan := PlanOf(m, manifest, render);
    PlanIsFaithful(m, manifest, render);
    assert PlanRefs(plan)[i] == Refs(Ordered(plan.manifest.value.objects))[i];
    StampedOrdered(manifest.objects, m, render);
    var o := Ordered(manifest.objects)[i].resource;
    StampedMeta(o, m, render);
    StampedTags(o.metadata.tags, m, RenderedHash(StampBase(o, m), render), "");
  }

  /** A delete that lands takes the object away, or marks it for as long as its finalizers hold it. */
  lemma DeletedIsGone(w: World, target: ObjectRef, version: LiveIdentity)
    requires Meets(w, Delete(target, version)) == Landed
    ensures
      var before, after := w.objects[target], LookIn(After(w, Delete(target, version)), target);
      && (before.finalizers == [] ==> after.None?)
      && (before.finalizers != [] ==>
            after.Some? && after.value.deleting && after.value.tags == before.tags
              && after.value.finalizers == before.finalizers)
  {
  }

  /** An effect lands exactly on what it was made for, and changes nothing else. */
  lemma LandsExactly(w: World, e: Effect, name: ObjectRef)
    ensures Meets(w, e) == Landed <==>
      if e.Create? then LookIn(w, e.target).None?
      else LookIn(w, e.target).Some? && LookIn(w, e.target).value.identity == e.version
    ensures Meets(w, e) == Landed && name != e.target ==> LookIn(After(w, e), name) == LookIn(w, name)
  {
  }
}
