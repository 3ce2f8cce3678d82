/** What projection and teardown achieve if nothing comes in between. */
module CalmProjection {
  import opened Prelude
  import opened Choosing
  import opened Manifests
  import opened Stamps
  import opened Planning
  import opened Plans
  import opened Cluster
  import opened Projection
  import opened Rollout
  import opened Teardown
  import opened ProjectionLaws

  // ---- requests for different objects do not get in each other's way -----

  lemma LandsByLook(w: World, u: World, e: Effect)
    requires LookIn(w, e.target) == LookIn(u, e.target)
    ensures Lands(w, e) <==> Lands(u, e)
  {
  }

  /** Every attempt finds the world, as it was at first, as it expects. */
  ghost predicate AllReady(w: World, steps: seq<Event>) {
    forall i :: 0 <= i < |steps| && steps[i].Attempted? ==> Lands(w, steps[i].request.effect)
  }

  lemma {:induction false} TargetAmong(steps: seq<Event>, i: nat)
    requires i < |steps| && steps[i].Attempted?
    ensures steps[i].request.effect.target in AttemptRefs(steps)
  {
    if i < |steps| - 1 {
      TargetAmong(steps[..|steps| - 1], i);
    }
  }

  lemma LastTarget(steps: seq<Event>)
    requires steps != [] && Distinct(AttemptRefs(steps))
    ensures
      var n := |steps| - 1;
      && Distinct(AttemptRefs(steps[..n]))
      && (steps[n].Attempted? ==> steps[n].request.effect.target !in AttemptRefs(steps[..n]))
      && (forall name :: name in AttemptRefs(steps[..n]) ==> name in AttemptRefs(steps))
      && (steps[n].Attempted? ==> steps[n].request.effect.target in AttemptRefs(steps))
  {
    var n := |steps| - 1;
    var front, all := AttemptRefs(steps[..n]), AttemptRefs(steps);
    assert forall i :: 0 <= i < |front| ==> front[i] == all[i];
  }

  /** If each is ready and no two are for one object, each lands, and only their objects change. */
  lemma {:induction false} EachLands(w: World, steps: seq<Event>)
    requires Distinct(AttemptRefs(steps)) && AllReady(w, steps)
    ensures AllLand(w, steps)
    ensures forall name :: name !in AttemptRefs(steps) ==> LookIn(Worked(w, steps), name) == LookIn(w, name)
  {
    hide Lands, After, Meets, AttemptRefs, Distinct, LookIn;
    if steps != [] {
      var n := |steps| - 1;
      LastTarget(steps);
      FrontReady(w, steps);
      EachLands(w, steps[..n]);
      if steps[n].Attempted? {
        var e, u := steps[n].request.effect, Worked(w, steps[..n]);
        LandsByLook(w, u, e);
        assert Lands(w, e) && Lands(u, e);
        LandsMeets(u, e);
        forall name | name !in AttemptRefs(steps) ensures LookIn(Worked(w, steps), name) == LookIn(w, name) {
          LandsExactly(u, e, name);
        }
      }
    }
  }

  lemma FrontReady(w: World, steps: seq<Event>)
    requires steps != [] && AllReady(w, steps)
    ensures AllReady(w, steps[..|steps| - 1])
  {
    hide Lands;
    forall i | 0 <= i < |steps| - 1 && steps[i].Attempted? ensures Lands(w, steps[i].request.effect) {
    }
  }

  lemma LandsMeets(w: World, e: Effect)
    requires Lands(w, e)
    ensures Meets(w, e) == Landed
  {
  }

  /** What stands in the end where an attempt was made is what it made of what stood there at first. */
  lemma {:induction false} MadeThere(w: World, steps: seq<Event>, i: nat) returns (u: World)
    requires Distinct(AttemptRefs(steps)) && AllReady(w, steps) && i < |steps| && steps[i].Attempted?
    ensures
      var e := steps[i].request.effect;
      && LookIn(u, e.target) == LookIn(w, e.target) && Meets(u, e) == Landed
      && LookIn(Worked(w, steps), e.target) == LookIn(After(u, e), e.target)
  {
    hide Lands, After, Meets, AttemptRefs, Distinct, LookIn;
    var n := |steps| - 1;
    var e := steps[i].request.effect;
    LastTarget(steps);
    FrontReady(w, steps);
    EachLands(w, steps[..n]);
    if i == n {
      u := Worked(w, steps[..n]);
      LandsByLook(w, u, e);
      LandsMeets(u, e);
    } else {
      u := MadeThere(w, steps[..n], i);
      TargetAmong(steps[..n], i);
      if steps[n].Attempted? {
        var last, v := steps[n].request.effect, Worked(w, steps[..n]);
        LandsByLook(w, v, last);
        LandsMeets(v, last);
        LandsExactly(v, last, e.target);
      }
    }
  }

  // ---- applying ----------------------------------------------------------

  lemma {:induction false} GroupsAttempt(s: Objects, orders: seq<ApplyOrder>, observations: seq<Observation>,
                                         plan: ProjectionPlan, e: Event)
    requires e in GroupsTrace(s, orders, observations, plan)
    ensures exists x :: x in s && e == Attempted(RequestFor(x, observations, plan))
  {
    hide RequestFor;
    var n := |orders| - 1;
    if e in GroupsTrace(s, orders[..n], observations, plan) {
      GroupsAttempt(s, orders[..n], observations, plan, e);
    } else {
      var group := Group(s, orders[n]);
      var i :| 0 <= i < |group| && Attempts(group, observations, plan)[i] == e;
      assert group[i] in s;
    }
  }

  lemma TraceAttempts(s: Objects, observations: seq<Observation>, plan: ProjectionPlan, e: Event)
    requires e in Trace(s, observations, plan) && e.Attempted?
    ensures exists x :: x in s && e == Attempted(RequestFor(x, observations, plan))
  {
    hide GroupsTrace, RequestFor, Group, Refs;
    if e in GroupsTrace(s, STORAGE, observations, plan) {
      GroupsAttempt(s, STORAGE, observations, plan, e);
    } else {
      assert e in GroupsTrace(s, SERVING, observations, plan);
      GroupsAttempt(s, SERVING, observations, plan, e);
    }
  }

  /** The plan's objects, in plan order, with the places of their references. */
  lemma PlannedPlace(m: Materialization, manifest: Manifest, render: Renderer, x: ManifestObject) returns (i: nat)
    requires Plannable(m, manifest) && x in PlanOf(m, manifest, render).manifest.value.objects
    ensures
      var plan := PlanOf(m, manifest, render);
      && i < |plan.objects| && i < |Ordered(plan.manifest.value.objects)|
      && Ordered(plan.manifest.value.objects)[i] == x && plan.objects[i].objectRef == RefOf(x.resource)
  {
    hide Ordered, RefOf, StampAll, PlanObjects, Plannable;
    var plan := PlanOf(m, manifest, render);
    PlanIsFaithful(m, manifest, render);
    OrderedMembers(plan.manifest.value.objects, x);
    i :| 0 <= i < |Ordered(plan.manifest.value.objects)| && Ordered(plan.manifest.value.objects)[i] == x;
    assert |PlanRefs(plan)| == |Refs(Ordered(plan.manifest.value.objects))|;
    PlansItsOwn(m, manifest, render, i);
  }

  lemma CalmReady(w: World, m: Materialization, manifest: Manifest, render: Renderer)
    requires Plannable(m, manifest)
    ensures
      var plan := PlanOf(m, manifest, render);
      && AllReady(w, CalmTrace(w, plan)) && Distinct(AttemptRefs(CalmTrace(w, plan)))
      && AttemptRefs(CalmTrace(w, plan)) == PlanRefs(plan)
  {
    hide Ordered, RefOf, Plannable, Trace, AttemptRefs, Observations, PlanOf, PlanRefs;
    var plan := PlanOf(m, manifest, render);
    PlanHasManifest(m, manifest, render);
    var s, seen := plan.manifest.value.objects, SeenIn(w, plan.objects);
    PlanIsFaithful(m, manifest, render);
    TraceRefs(s, Observations(plan.objects, seen), plan);
    var trace := CalmTrace(w, plan);
    forall k | 0 <= k < |trace| && trace[k].Attempted? ensures Lands(w, trace[k].request.effect) {
      TraceAttempts(s, Observations(plan.objects, seen), plan, trace[k]);
      var x :| x in s && trace[k] == Attempted(RequestFor(x, Observations(plan.objects, seen), plan));
      var i := PlannedPlace(m, manifest, render, x);
      RequestExactly(plan, seen, x, i);
    }
  }

  lemma PlanHasManifest(m: Materialization, manifest: Manifest, render: Renderer)
    ensures PlanOf(m, manifest, render).manifest.Some?
  {
  }

  /** In `z` the planned object is there and owned, and on its way out only if it was in `w`. */
  ghost predicate Stood(w: World, z: World, planned: ObjectPlan) {
    var before, after := LookIn(w, planned.objectRef), LookIn(z, planned.objectRef);
    && after.Some? && Owns(planned.expected, after.value.tags)
    && (after.value.deleting <==> before.Some? && before.value.deleting)
  }

  /**
   Undisturbed, a planned manifest is appliable wherever nothing foreign is in
   its way; in the end all its objects stand, owned by the plan, unless they
   were on their way out already; and nothing else has changed.
   */
  lemma CalmApply(w: World, m: Materialization, manifest: Manifest, render: Renderer, name: ObjectRef)
    requires Plannable(m, manifest)
    requires
      var plan := PlanOf(m, manifest, render);
      AllOwned(plan.objects, SeenIn(w, plan.objects))
    ensures
      var plan := PlanOf(m, manifest, render);
      var z := Worked(w, CalmTrace(w, plan));
      && Appliable(w, plan)
      && (name !in PlanRefs(plan) ==> LookIn(z, name) == LookIn(w, name))
      && forall i :: 0 <= i < |plan.objects| ==> Stood(w, z, plan.objects[i])
  {
    hide Ordered, RefOf, Plannable, Trace, AttemptRefs, Observations, PlanOf, PlanRefs, Owns, Worked, AllLand, LookIn;
    hide AllReady, Renderable, Stood;
    var plan := PlanOf(m, manifest, render);
    PlanHasManifest(m, manifest, render);
    CalmReady(w, m, manifest, render);
    EachLands(w, CalmTrace(w, plan));
    PlanRenders(m, manifest, render);
    forall i | 0 <= i < |plan.objects| ensures Stood(w, Worked(w, CalmTrace(w, plan)), plan.objects[i]) {
      StandsAt(w, m, manifest, render, i);
    }
  }

  lemma PlanRenders(m: Materialization, manifest: Manifest, render: Renderer)
    requires Plannable(m, manifest)
    ensures Renderable(PlanOf(m, manifest, render).manifest.value)
  {
    hide Renderable, Plannable, StampAll, PlanObjects;
    StampedRenderable(m, manifest, render);
  }

  lemma {:induction false} AttemptOn(steps: seq<Event>, name: ObjectRef) returns (k: nat)
    requires name in AttemptRefs(steps)
    ensures k < |steps| && steps[k].Attempted? && steps[k].request.effect.target == name
  {
    var n := |steps| - 1;
    if name in AttemptRefs(steps[..n]) {
      k := AttemptOn(steps[..n], name);
    } else {
      k := n;
    }
  }

  /** The one effect asked for on a planned object, and the world it lands in. */
  lemma RequestAt(w: World, m: Materialization, manifest: Manifest, render: Renderer, i: nat)
    returns (u: World, e: Effect)
    requires Plannable(m, manifest) && i < |PlanOf(m, manifest, render).objects|
    ensures
      var plan := PlanOf(m, manifest, render);
      var x := Ordered(plan.manifest.value.objects);
      && i < |x| && !e.Delete? && e.body == x[i].resource
      && e.target == RefOf(x[i].resource) == plan.objects[i].objectRef
      && (e.Create? <==> LookIn(w, e.target).None?)
      && LookIn(u, e.target) == LookIn(w, e.target) && Meets(u, e) == Landed
      && LookIn(Worked(w, CalmTrace(w, plan)), e.target) == LookIn(After(u, e), e.target)
  {
    hide Ordered, RefOf, Plannable, Trace, AttemptRefs, Observations, PlanOf, Owns, Worked, AllLand, AllReady, After;
    hide Distinct, Meets;
    var plan := PlanOf(m, manifest, render);
    PlanHasManifest(m, manifest, render);
    CalmReady(w, m, manifest, render);
    var s, seen, trace := plan.manifest.value.objects, SeenIn(w, plan.objects), CalmTrace(w, plan);
    assert PlanRefs(plan)[i] in AttemptRefs(trace);
    var k := AttemptOn(trace, plan.objects[i].objectRef);
    u := MadeThere(w, trace, k);
    e := trace[k].request.effect;
    TraceAttempts(s, Observations(plan.objects, seen), plan, trace[k]);
    var x :| x in s && trace[k] == Attempted(RequestFor(x, Observations(plan.objects, seen), plan));
    var j := PlannedPlace(m, manifest, render, x);
    PlanIsFaithful(m, manifest, render);
    RequestExactly(plan, seen, x, j);
    PlannedOnce(plan, i, j);
  }

  lemma StandsAt(w: World, m: Materialization, manifest: Manifest, render: Renderer, i: nat)
    requires Plannable(m, manifest) && i < |PlanOf(m, manifest, render).objects|
    ensures
      var plan := PlanOf(m, manifest, render);
      Stood(w, Worked(w, CalmTrace(w, plan)), plan.objects[i])
  {
    hide Ordered, RefOf, Plannable, CalmTrace, PlanOf, Owns, Worked, After, Meets;
    var u, e := RequestAt(w, m, manifest, render, i);
    LandedIsOwned(u, m, manifest, render, i, e);
  }

  /** What an apply creates has exactly the tags and the policy of its manifest, and nothing holds it. */
  ghost predicate Fresh(z: World, planned: ObjectPlan, o: KubernetesObject) {
    var live := LookIn(z, planned.objectRef);
    && live.Some? && live.value.tags == o.metadata.tags && live.value.reclaimPolicy == Policy(o)
    && !live.value.deleting && live.value.finalizers == []
  }

  lemma FreshAt(w: World, m: Materialization, manifest: Manifest, render: Renderer, i: nat)
    requires Plannable(m, manifest) && i < |PlanOf(m, manifest, render).objects|
    requires LookIn(w, PlanOf(m, manifest, render).objects[i].objectRef).None?
    ensures
      var plan := PlanOf(m, manifest, render);
      var x := Ordered(plan.manifest.value.objects);
      i < |x| && Fresh(Worked(w, CalmTrace(w, plan)), plan.objects[i], x[i].resource)
  {
    hide Ordered, RefOf, Plannable, CalmTrace, PlanOf, Owns, Worked, Policy;
    var u, e := RequestAt(w, m, manifest, render, i);
  }

  // ---- deleting ----------------------------------------------------------

  /** Nothing planned is on its way out already, or held by a finalizer. */
  ghost predicate FreeToGo(objects: seq<ObjectPlan>, seen: Sightings) {
    |seen| == |objects| && forall i :: 0 <= i < |seen| && seen[i].Some? ==>
      !seen[i].value.deleting && seen[i].value.finalizers == []
  }

  lemma CalmDeletesAre(w: World, plan: ProjectionPlan, r: Request)
    requires Distinct(PlanRefs(plan))
    ensures
      var seen := SeenIn(w, plan.objects);
      Attempted(r) in CalmDeletes(w, plan) <==>
      exists i :: 0 <= i < |seen| && Wanted(plan, seen, i)
        && r == Request(Delete(plan.objects[i].objectRef, seen[i].value.identity), plan)
    ensures Distinct(AttemptRefs(CalmDeletes(w, plan)))
  {
    hide Wanted, Observations, DeleteRequests, DeleteOrder, PlanRefs, AttemptRefs, Distinct;
    var seen := SeenIn(w, plan.objects);
    OwnedHasIdentity(plan.objects, seen);
    DeletesExactly(plan, seen, r);
    var order := DeleteOrder(PlanRefs(plan));
    ChosenDistinct(order, Wanting(plan, seen, order));
  }

  lemma {:induction false} ChosenDistinct<T>(s: seq<T>, p: nat -> bool)
    requires Distinct(s)
    ensures Distinct(Chosen(s, p))
  {
    if s != [] {
      var n := |s| - 1;
      ChosenDistinct(s[..n], p);
      ChosenMember(s[..n], p, s[n]);
    }
  }

  lemma DeletesReady(w: World, plan: ProjectionPlan)
    requires Distinct(PlanRefs(plan)) && Cleared(plan.objects, SeenIn(w, plan.objects))
    ensures AllReady(w, CalmDeletes(w, plan))
  {
    hide Observations, DeleteRequests, DeleteOrder, PlanRefs, Distinct, CalmDeletes, Owns;
    var steps, seen := CalmDeletes(w, plan), SeenIn(w, plan.objects);
    forall k | 0 <= k < |steps| && steps[k].Attempted? ensures Lands(w, steps[k].request.effect) {
      CalmDeletesAre(w, plan, steps[k].request);
      assert steps[k] in steps;
      var i :| 0 <= i < |seen| && Wanted(plan, seen, i)
        && steps[k].request == Request(Delete(plan.objects[i].objectRef, seen[i].value.identity), plan);
    }
  }

  /** Undisturbed, the object is gone, if it is owned and nothing holds it. */
  lemma GoneAt(w: World, plan: ProjectionPlan, i: nat)
    requires Distinct(PlanRefs(plan)) && Cleared(plan.objects, SeenIn(w, plan.objects))
    requires FreeToGo(plan.objects, SeenIn(w, plan.objects)) && i < |plan.objects|
    ensures LookIn(Worked(w, CalmDeletes(w, plan)), plan.objects[i].objectRef).None?
  {
    hide Observations, DeleteRequests, DeleteOrder, Distinct, CalmDeletes, Owns, AttemptRefs, AllReady, Worked, After;
    hide PlanRefs, Meets, AllLand;
    var steps, seen, name := CalmDeletes(w, plan), SeenIn(w, plan.objects), plan.objects[i].objectRef;
    DeletesReady(w, plan);
    CalmDeletesAre(w, plan, Request(Delete(name, LiveIdentity(0, 0)), plan));
    EachLands(w, steps);
    if seen[i].Some? {
      var r := Request(Delete(name, seen[i].value.identity), plan);
      CalmDeletesAre(w, plan, r);
      assert Wanted(plan, seen, i);
      var k :| 0 <= k < |steps| && steps[k] == Attempted(r);
      var u := MadeThere(w, steps, k);
      DeletedIsGone(u, name, seen[i].value.identity);
    } else if name in AttemptRefs(steps) {
      var k := AttemptOn(steps, name);
      CalmDeletesAre(w, plan, steps[k].request);
      assert steps[k] == Attempted(steps[k].request) && steps[k] in steps;
      var j :| 0 <= j < |seen| && Wanted(plan, seen, j)
        && steps[k].request == Request(Delete(plan.objects[j].objectRef, seen[j].value.identity), plan);
      PlannedOnce(plan, i, j);
    }
  }

  /** Undisturbed, a plan that may delete what it sees, with nothing holding it, deletes all of it and no more. */
  lemma CalmDelete(w: World, plan: ProjectionPlan, name: ObjectRef)
    requires Distinct(PlanRefs(plan)) && Cleared(plan.objects, SeenIn(w, plan.objects))
    requires FreeToGo(plan.objects, SeenIn(w, plan.objects))
    ensures Deletable(w, plan)
    ensures name !in PlanRefs(plan) ==> LookIn(Worked(w, CalmDeletes(w, plan)), name) == LookIn(w, name)
  {
    hide Observations, DeleteRequests, DeleteOrder, Distinct, CalmDeletes, Owns, AttemptRefs, AllReady, Worked, AllLand;
    hide Cleared, FreeToGo, LookIn;
    DeletesReady(w, plan);
    CalmDeletesAre(w, plan, Request(Delete(name, LiveIdentity(0, 0)), plan));
    var steps := CalmDeletes(w, plan);
    EachLands(w, steps);
    if name in AttemptRefs(steps) {
      var k := AttemptOn(steps, name);
      CalmDeletesAre(w, plan, steps[k].request);
      assert steps[k] == Attempted(steps[k].request) && steps[k] in steps;
      var j :| 0 <= j < |plan.objects| && Wanted(plan, SeenIn(w, plan.objects), j)
        && steps[k].request ==
             Request(Delete(plan.objects[j].objectRef, SeenIn(w, plan.objects)[j].value.identity), plan);
      assert PlanRefs(plan)[j] == name;
    }
    forall i | 0 <= i < |plan.objects| ensures LookIn(Worked(w, steps), plan.objects[i].objectRef).None? {
      GoneAt(w, plan, i);
    }
  }

  // ---- there and back ----------------------------------------------------

  /** Every volume of the manifest keeps its storage when released. */
  ghost predicate KeepsStorage(plan: ProjectionPlan)
    requires plan.manifest.Some?
  {
    var x := Ordered(plan.manifest.value.objects);
    |x| == |plan.objects| && forall i :: 0 <= i < |x| && plan.objects[i].objectRef.kind == "PersistentVolume" ==>
      Policy(x[i].resource) == Some("Retain")
  }

  /** The cleanup plan of the row that recorded a fresh projection may delete all of it. */
  lemma FreshIsCleared(w: World, m: Materialization, manifest: Manifest, render: Renderer, row: Materialization)
    requires Plannable(m, manifest) && row.id == m.id && row.instanceId == m.instanceId
    requires row.projectionGeneration >= m.projectionGeneration
    requires row.renderedObjects == PlanRefs(PlanOf(m, manifest, render))
    requires forall name :: name in row.renderedObjects ==> LookIn(w, name).None?
    requires KeepsStorage(PlanOf(m, manifest, render))
    ensures
      var cleanup, z := FromRecordedRefs(row), Worked(w, CalmTrace(w, PlanOf(m, manifest, render)));
      && Distinct(PlanRefs(cleanup)) && Cleared(cleanup.objects, SeenIn(z, cleanup.objects))
      && FreeToGo(cleanup.objects, SeenIn(z, cleanup.objects))
  {
    hide Ordered, RefOf, Plannable, CalmTrace, PlanOf, Owns, Worked, Policy, FromRecordedRefs, Distinct;
    var plan, cleanup := PlanOf(m, manifest, render), FromRecordedRefs(row);
    PlanHasManifest(m, manifest, render);
    var z, x := Worked(w, CalmTrace(w, plan)), Ordered(plan.manifest.value.objects);
    CleanupOwnsProjection(m, manifest, render, row);
    PlanIsFaithful(m, manifest, render);
    forall i | 0 <= i < |cleanup.objects|
      ensures
        && Fresh(z, cleanup.objects[i], x[i].resource) && cleanup.objects[i].objectRef == plan.objects[i].objectRef
    {
      assert PlanRefs(cleanup)[i] == PlanRefs(plan)[i];
      FreshAt(w, m, manifest, render, i);
    }
  }

  /**
   Undisturbed, a projection into free names and the teardown by the recorded
   references both go through, and leave the cluster as it was.
   */
  lemma ThereAndBack(w: World, m: Materialization, manifest: Manifest, render: Renderer, row: Materialization,
                     name: ObjectRef)
    requires Plannable(m, manifest) && row.id == m.id && row.instanceId == m.instanceId
    requires row.projectionGeneration >= m.projectionGeneration
    requires row.renderedObjects == PlanRefs(PlanOf(m, manifest, render))
    requires forall name :: name in row.renderedObjects ==> LookIn(w, name).None?
    requires KeepsStorage(PlanOf(m, manifest, render))
    ensures
      var plan, cleanup := PlanOf(m, manifest, render), FromRecordedRefs(row);
      var z := Worked(w, CalmTrace(w, plan));
      && Appliable(w, plan) && Deletable(z, cleanup)
      && LookIn(Worked(z, CalmDeletes(z, cleanup)), name) == LookIn(w, name)
  {
    hide Plannable, CalmTrace, CalmDeletes, PlanOf, Owns, Worked, FromRecordedRefs, Distinct, Appliable, LookIn;
    hide FreeToGo, Cleared, AllLand, KeepsStorage, Stood;
    var plan, cleanup := PlanOf(m, manifest, render), FromRecordedRefs(row);
    PlanHasManifest(m, manifest, render);
    var z := Worked(w, CalmTrace(w, plan));
    CleanupOwnsProjection(m, manifest, render, row);
    NothingInTheWay(w, plan);
    CalmApply(w, m, manifest, render, name);
    FreshIsCleared(w, m, manifest, render, row);
    CalmDelete(z, cleanup, name);
    if name in PlanRefs(cleanup) {
      var i :| 0 <= i < |cleanup.objects| && cleanup.objects[i].objectRef == name;
      assert LookIn(Worked(z, CalmDeletes(z, cleanup)), cleanup.objects[i].objectRef).None?;
    }
  }

  lemma NothingInTheWay(w: World, plan: ProjectionPlan)
    requires forall name :: name in PlanRefs(plan) ==> LookIn(w, name).None?
    ensures AllOwned(plan.objects, SeenIn(w, plan.objects))
  {
    forall i | 0 <= i < |plan.objects| ensures LookIn(w, plan.objects[i].objectRef).None? {
      assert PlanRefs(plan)[i] == plan.objects[i].objectRef;
    }
  }
}
