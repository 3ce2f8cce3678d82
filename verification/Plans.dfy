/** Building a projection plan, and the order its objects are deleted in. */
module Plans {
  import opened Prelude
  import opened Decimal
  import opened Manifests
  import opened Stamps
  import opened ClientErrors
  import opened Planning

  type Renderer = KubernetesObject -> string

  function StampOne(x: ManifestObject, m: Materialization, render: Renderer): ManifestObject {
    x.(resource := Stamped(x.resource, m, render))
  }

  function StampAll(s: Objects, m: Materialization, render: Renderer): (r: Objects)
    ensures |r| == |s|
    ensures forall i :: 0 <= i < |s| ==> r[i] == StampOne(s[i], m, render)
  {
    seq(|s|, i requires 0 <= i < |s| => StampOne(s[i], m, render))
  }

  /** The stamp a plan expects on the object it stamped itself. */
  function StampFor(x: ManifestObject, m: Materialization, render: Renderer): ExpectedStamp {
    Expect(m.id, m.instanceId, m.projectionGeneration, Some(RenderedHash(StampBase(x.resource, m), render)))
  }

  function PlanObjects(s: Objects, m: Materialization, render: Renderer): (r: seq<ObjectPlan>)
    ensures |r| == |s|
    ensures forall i :: 0 <= i < |s| ==> r[i] == ObjectPlan(RefOf(s[i].resource), StampFor(s[i], m, render))
  {
    seq(|s|, i requires 0 <= i < |s| => ObjectPlan(RefOf(s[i].resource), StampFor(s[i], m, render)))
  }

  /** The rendered manifest's own template generation is announced on every object. */
  predicate TemplateAnnounced(t: Tags, g: Option<Generation>) {
    g.Some? ==> Tag(t.annotations, ANNOTATION_TEMPLATE_GENERATION) == Some(Print(g.value))
  }

  /** What a manifest must be for planning to succeed, before any stamping. */
  ghost predicate Plannable(m: Materialization, manifest: Manifest) {
    && (manifest.objects != [] ==> manifest.instanceGeneration == m.projectionGeneration)
    && (forall i :: 0 <= i < |manifest.objects| ==>
          var resource := manifest.objects[i].resource;
          && TemplateAnnounced(resource.metadata.tags, manifest.templateGeneration)
          && (TemplateTags(resource).Some? ==>
            TemplateAnnounced(TemplateTags(resource).value, manifest.templateGeneration)))
    && GoodRefs(manifest.objects)
  }

  lemma StampedMarks(x: ManifestObject, m: Materialization, render: Renderer, instance: Generation,
                     template: Option<Generation>)
    ensures
      GenerationsMarked(StampOne(x, m, render).resource, instance, template) <==>
        && instance == m.projectionGeneration
        && TemplateAnnounced(x.resource.metadata.tags, template)
        && (TemplateTags(x.resource).Some? ==> TemplateAnnounced(TemplateTags(x.resource).value, template))
  {
    hide Print, Stamped, StampTags, HashTags, RenderedHash, Tag;
    var hash := RenderedHash(StampBase(x.resource, m), render);
    KeysDiffer();
    StampedMeta(x.resource, m, render);
    StampedTags(x.resource.metadata.tags, m, hash, ANNOTATION_TEMPLATE_GENERATION);
    if TemplateTags(x.resource).Some? {
      StampedTags(TemplateTags(x.resource).value, m, hash, ANNOTATION_TEMPLATE_GENERATION);
    }
    PrintInjective(instance, m.projectionGeneration);
  }

  lemma StampedRefs(s: Objects, m: Materialization, render: Renderer)
    ensures Refs(StampAll(s, m, render)) == Refs(s)
    ensures GoodRefs(StampAll(s, m, render)) <==> GoodRefs(s)
  {
    hide Stamped, RefFault, RefOf, Distinct;
    var stamped := StampAll(s, m, render);
    forall i | 0 <= i < |s| ensures RefOf(stamped[i].resource) == RefOf(s[i].resource) {
      StampedMeta(s[i].resource, m, render);
    }
    assert Refs(stamped) == Refs(s);
    RefsSound(s);
    RefsSound(stamped);
  }

  lemma RefsSound(s: Objects)
    ensures GoodRefs(s) <==> (forall i :: 0 <= i < |Refs(s)| ==> RefFault(Refs(s)[i]).None?) && Distinct(Refs(s))
  {
    hide RefFault, RefOf, Distinct;
    if forall i :: 0 <= i < |Refs(s)| ==> RefFault(Refs(s)[i]).None? {
      forall x | x in s ensures RefFault(RefOf(x.resource)).None? {
        var i :| 0 <= i < |s| && s[i] == x;
        assert Refs(s)[i] == RefOf(x.resource);
      }
    }
  }

  lemma StampedRenderable(m: Materialization, manifest: Manifest, render: Renderer)
    ensures Renderable(manifest.(objects := StampAll(manifest.objects, m, render))) <==> Plannable(m, manifest)
  {
    hide GenerationsMarked, TemplateAnnounced, GoodRefs, StampOne;
    StampedRefs(manifest.objects, m, render);
    forall i | 0 <= i < |manifest.objects|
      ensures
        var x := manifest.objects[i];
        GenerationsMarked(StampOne(x, m, render).resource, manifest.instanceGeneration,
          manifest.templateGeneration) <==>
          && manifest.instanceGeneration == m.projectionGeneration
          && TemplateAnnounced(x.resource.metadata.tags, manifest.templateGeneration)
          && (TemplateTags(x.resource).Some? ==>
            TemplateAnnounced(TemplateTags(x.resource).value, manifest.templateGeneration))
    {
      StampedMarks(manifest.objects[i], m, render, manifest.instanceGeneration, manifest.templateGeneration);
    }
    if manifest.objects != [] {
      assert StampAll(manifest.objects, m, render)[0] == StampOne(manifest.objects[0], m, render);
    }
  }

  lemma {:induction false} StampedGroup(s: Objects, o: ApplyOrder, m: Materialization, render: Renderer)
    ensures Group(StampAll(s, m, render), o) == StampAll(Group(s, o), m, render)
  {
    hide Stamped;
    if s != [] {
      var n := |s| - 1;
      StampedGroup(s[..n], o, m, render);
      assert StampAll(s, m, render)[..n] == StampAll(s[..n], m, render);
    }
  }

  lemma StampedOrdered(s: Objects, m: Materialization, render: Renderer)
    ensures Ordered(StampAll(s, m, render)) == StampAll(Ordered(s), m, render)
  {
    hide Group, StampOne;
    StampedGroup(s, VolumeOrder, m, render);
    StampedGroup(s, ClaimOrder, m, render);
    StampedGroup(s, SecretOrder, m, render);
    StampedGroup(s, ServiceOrder, m, render);
    StampedGroup(s, WorkloadOrder, m, render);
  }

  /**
   Plan a manifest. Planning succeeds exactly on plannable manifests; the plan
   then holds the stamped manifest and, in apply order, each reference with the
   stamp of its own object.
   */
  method FromManifest(m: Materialization, manifest: Manifest, render: Renderer)
    returns (r: Result<ProjectionPlan, MaterializerError>)
    ensures r.Ok? <==> Plannable(m, manifest)
    ensures r.Ok? ==> r.value == PlanOf(m, manifest, render)
    ensures r.Err? ==> r.error.InvalidManifest?
  {
    hide Plannable, Renderable, Stamped, Ordered, StampFor, GoodRefs;
    var objects := manifest.objects;
    for i := 0 to |objects|
      invariant |objects| == |manifest.objects|
      invariant forall k :: 0 <= k < |objects| ==>
        objects[k] == if k < i then StampOne(manifest.objects[k], m, render) else manifest.objects[k]
    {
      var base := StampBase(objects[i].resource, m);
      var hash := RenderedHash(base, render);
      StampedUnfolds(objects[i].resource, m, render);
      objects := objects[i := objects[i].(resource := StampHash(base, hash))];
    }
    assert objects == StampAll(manifest.objects, m, render);
    StampedRenderable(m, manifest, render);
    StampedOrdered(manifest.objects, m, render);
    StampedRefs(Ordered(manifest.objects), m, render);
    var refs := RenderedRefs(manifest.(objects := objects));
    if refs.Err? {
      return Err(refs.error);
    }
    PlannableRefs(m, manifest);
    var expected := ExpectedStamps(m, manifest.objects, objects, render);
    var planned := AssignStamps(m, manifest.objects, refs.value, expected, render);
    return Ok(ProjectionPlan(m.id, m.instanceId, m.projectionGeneration, Some(manifest.(objects := objects)), planned));
  }

  function PlanOf(m: Materialization, manifest: Manifest, render: Renderer): ProjectionPlan {
    ProjectionPlan(m.id, m.instanceId, m.projectionGeneration,
      Some(manifest.(objects := StampAll(manifest.objects, m, render))),
      PlanObjects(Ordered(manifest.objects), m, render))
  }

  lemma StampedUnfolds(o: KubernetesObject, m: Materialization, render: Renderer)
    ensures Stamped(o, m, render) == StampHash(StampBase(o, m), RenderedHash(StampBase(o, m), render))
  {
  }

  lemma PlannableRefs(m: Materialization, manifest: Manifest)
    requires Plannable(m, manifest)
    ensures Distinct(Refs(manifest.objects)) && Distinct(Refs(Ordered(manifest.objects)))
  {
    GoodRefsOrdered(manifest.objects);
  }

  /** Index the stamps, read off the stamped objects, by reference. */
  method ExpectedStamps(m: Materialization, plain: Objects, stamped: Objects, render: Renderer)
    returns (expected: map<ObjectRef, ExpectedStamp>)
    requires stamped == StampAll(plain, m, render) && Distinct(Refs(plain))
    ensures forall k :: 0 <= k < |plain| ==>
      RefOf(plain[k].resource) in expected && expected[RefOf(plain[k].resource)] == StampFor(plain[k], m, render)
  {
    hide Stamped, RefOf, StampFor;
    expected := map[];
    for i := 0 to |stamped|
      invariant forall k :: 0 <= k < i ==>
        RefOf(plain[k].resource) in expected && expected[RefOf(plain[k].resource)] == StampFor(plain[k], m, render)
    {
      var objectRef := RefOf(stamped[i].resource);
      var hash := Tag(stamped[i].resource.metadata.tags.annotations, ANNOTATION_RENDERED_HASH);
      ReadBack(plain[i], m, render);
      expected := expected[objectRef := Expect(m.id, m.instanceId, m.projectionGeneration, hash)];
      assert forall k :: 0 <= k < i ==> Refs(plain)[k] != Refs(plain)[i];
    }
  }

  lemma ReadBack(x: ManifestObject, m: Materialization, render: Renderer)
    ensures
      var s := StampOne(x, m, render).resource;
      && RefOf(s) == RefOf(x.resource)
      && Expect(m.id, m.instanceId, m.projectionGeneration,
        Tag(s.metadata.tags.annotations, ANNOTATION_RENDERED_HASH)) == StampFor(x, m, render)
  {
    hide Stamped, RefOf, Tag, StampTags, HashTags, RenderedHash;
    StampedMeta(x.resource, m, render);
    StampedTags(x.resource.metadata.tags, m, RenderedHash(StampBase(x.resource, m), render), "");
  }

  /** Take each reference's stamp out of the index; it is always still there. */
  method AssignStamps(m: Materialization, plain: Objects, refs: seq<ObjectRef>, stamps: map<ObjectRef, ExpectedStamp>,
                      render: Renderer)
    returns (planned: seq<ObjectPlan>)
    requires refs == Refs(Ordered(plain)) && Distinct(refs)
    requires forall k :: 0 <= k < |plain| ==>
      RefOf(plain[k].resource) in stamps && stamps[RefOf(plain[k].resource)] == StampFor(plain[k], m, render)
    ensures planned == PlanObjects(Ordered(plain), m, render)
  {
    hide Ordered, RefOf, StampFor;
    var expected := stamps;
    var ordered := Ordered(plain);
    planned := [];
    forall k | 0 <= k < |refs| ensures refs[k] in expected && expected[refs[k]] == StampFor(ordered[k], m, render) {
      OrderedMembers(plain, ordered[k]);
      var j :| 0 <= j < |plain| && plain[j] == ordered[k];
    }
    for i := 0 to |refs|
      invariant forall k :: i <= k < |refs| ==>
        refs[k] in expected && expected[refs[k]] == StampFor(ordered[k], m, render)
      invariant |planned| == i
      invariant forall k :: 0 <= k < i ==> planned[k] == ObjectPlan(refs[k], StampFor(ordered[k], m, render))
    {
      planned := planned + [ObjectPlan(refs[i], expected[refs[i]])];
      expected := expected - {refs[i]};
    }
  }

  /** A plan made only from the references a row recorded; it expects no particular hash. */
  function FromRecordedRefs(m: Materialization): ProjectionPlan {
    var expected := Expect(m.id, m.instanceId, m.projectionGeneration, None);
    ProjectionPlan(m.id, m.instanceId, m.projectionGeneration, None,
      seq(|m.renderedObjects|, i requires 0 <= i < |m.renderedObjects| => ObjectPlan(m.renderedObjects[i], expected)))
  }

  function PlanRefs(plan: ProjectionPlan): (r: seq<ObjectRef>)
    ensures |r| == |plan.objects|
    ensures forall i :: 0 <= i < |r| ==> r[i] == plan.objects[i].objectRef
  {
    seq(|plan.objects|, i requires 0 <= i < |plan.objects| => plan.objects[i].objectRef)
  }

  /**
   The plan's references are the manifest's, in apply order and pairwise
   distinct; each owns its own stamped object.
   */
  lemma PlanIsFaithful(m: Materialization, manifest: Manifest, render: Renderer)
    requires Plannable(m, manifest)
    ensures
      var plan := PlanOf(m, manifest, render);
      && PlanRefs(plan) == Refs(Ordered(manifest.objects)) == Refs(Ordered(plan.manifest.value.objects))
      && Distinct(PlanRefs(plan))
      && multiset(PlanRefs(plan)) == multiset(Refs(manifest.objects))
      && (forall i :: 0 <= i < |plan.objects| ==>
            Owns(plan.objects[i].expected, Ordered(plan.manifest.value.objects)[i].resource.metadata.tags))
      && (manifest.objects != [] ==> manifest.instanceGeneration == plan.instanceGeneration)
  {
    hide Ordered, Stamped, Owns, GoodRefs, Distinct;
    var plan := PlanOf(m, manifest, render);
    var ordered := Ordered(manifest.objects);
    StampedOrdered(manifest.objects, m, render);
    StampedRefs(ordered, m, render);
    OrderedPermutes(manifest.objects);
    PlannableRefs(m, manifest);
    assert PlanRefs(plan) == Refs(ordered);
    forall i | 0 <= i < |plan.objects|
      ensures Owns(plan.objects[i].expected, Ordered(plan.manifest.value.objects)[i].resource.metadata.tags)
    {
      StampOrdered(ordered[i].resource, m, render, 0, None);
    }
  }

  lemma RecordedRefs(row: Materialization)
    ensures PlanRefs(FromRecordedRefs(row)) == row.renderedObjects
    ensures forall i :: 0 <= i < |FromRecordedRefs(row).objects| ==>
      FromRecordedRefs(row).objects[i].expected == Expect(row.id, row.instanceId, row.projectionGeneration, None)
  {
    hide Expect;
  }

  /**
   The cleanup plan of a row that recorded a projection's references, at that
   generation or a later one, owns every object that projection stamped.
   */
  lemma CleanupOwnsProjection(m: Materialization, manifest: Manifest, render: Renderer, row: Materialization)
    requires Plannable(m, manifest) && row.id == m.id && row.instanceId == m.instanceId
    requires row.projectionGeneration >= m.projectionGeneration
    requires row.renderedObjects == PlanRefs(PlanOf(m, manifest, render))
    ensures
      var plan, cleanup := PlanOf(m, manifest, render), FromRecordedRefs(row);
      var stamped := Ordered(plan.manifest.value.objects);
      && |cleanup.objects| == |plan.objects| == |stamped|
      && PlanRefs(cleanup) == PlanRefs(plan) == Refs(stamped)
      && forall i :: 0 <= i < |stamped| ==> Owns(cleanup.objects[i].expected, stamped[i].resource.metadata.tags)
  {
    hide Ordered, Stamped, Owns, GoodRefs, Distinct, Expect, FromRecordedRefs, PlanRefs, Refs;
    var plan, cleanup := PlanOf(m, manifest, render), FromRecordedRefs(row);
    var ordered := Ordered(manifest.objects);
    PlanIsFaithful(m, manifest, render);
    StampedOrdered(manifest.objects, m, render);
    RecordedRefs(row);
    forall i | 0 <= i < |ordered|
      ensures Owns(cleanup.objects[i].expected, Ordered(plan.manifest.value.objects)[i].resource.metadata.tags)
    {
      StampOrdered(ordered[i].resource, m, render, row.projectionGeneration, None);
    }
  }

  // ---- delete order ------------------------------------------------------

  predicate IsWorkload(r: ObjectRef) { r.kind == "Deployment" || r.kind == "StatefulSet" }

  /** The references of one group, last first. */
  function Backwards(refs: seq<ObjectRef>, workloads: bool): seq<ObjectRef> {
    if refs == [] then []
    else
      var last := refs[|refs| - 1];
      (if IsWorkload(last) == workloads then [last] else []) + Backwards(refs[..|refs| - 1], workloads)
  }

  function DeleteOrder(refs: seq<ObjectRef>): seq<ObjectRef> { Backwards(refs, false) + Backwards(refs, true) }

  lemma {:induction false} BackwardsMembers(refs: seq<ObjectRef>, workloads: bool)
    ensures forall r :: r in Backwards(refs, workloads) <==> r in refs && IsWorkload(r) == workloads
  {
    if refs != [] {
      BackwardsMembers(refs[..|refs| - 1], workloads);
      assert refs == refs[..|refs| - 1] + [refs[|refs| - 1]];
    }
  }

  /** Deletion visits every reference once. */
  lemma {:induction false} DeleteOrderPermutes(refs: seq<ObjectRef>)
    ensures multiset(DeleteOrder(refs)) == multiset(refs)
  {
    if refs != [] {
      DeleteOrderPermutes(refs[..|refs| - 1]);
      assert refs == refs[..|refs| - 1] + [refs[|refs| - 1]];
    }
  }

  /** Every workload comes after everything that is not one. */
  lemma WorkloadsDeletedLast(refs: seq<ObjectRef>, i: nat, j: nat)
    requires i < j < |DeleteOrder(refs)| && IsWorkload(DeleteOrder(refs)[i])
    ensures IsWorkload(DeleteOrder(refs)[j])
  {
    BackwardsMembers(refs, false);
    BackwardsMembers(refs, true);
    assert DeleteOrder(refs)[i] !in Backwards(refs, false);
    assert i >= |Backwards(refs, false)|;
    assert DeleteOrder(refs)[j] == Backwards(refs, true)[j - |Backwards(refs, false)|];
  }

  /** Within a group the later-applied reference is deleted first. */
  lemma {:induction false} DeletedInReverse(refs: seq<ObjectRef>, i: nat, j: nat) returns (p: nat, q: nat)
    requires i < j < |refs| && IsWorkload(refs[i]) == IsWorkload(refs[j])
    ensures p < q < |DeleteOrder(refs)| && DeleteOrder(refs)[p] == refs[j] && DeleteOrder(refs)[q] == refs[i]
  {
    var w := IsWorkload(refs[i]);
    p, q := BackwardsReverses(refs, w, i, j);
    if w {
      p, q := p + |Backwards(refs, false)|, q + |Backwards(refs, false)|;
    }
  }

  lemma BackwardsLast(refs: seq<ObjectRef>, w: bool)
    requires refs != []
    ensures
      var n := |refs| - 1;
      Backwards(refs, w) == (if IsWorkload(refs[n]) == w then [refs[n]] else []) + Backwards(refs[..n], w)
  {
  }

  lemma {:induction false} BackwardsReverses(refs: seq<ObjectRef>, w: bool, i: nat, j: nat) returns (p: nat, q: nat)
    requires i < j < |refs| && IsWorkload(refs[i]) == IsWorkload(refs[j]) == w
    ensures p < q < |Backwards(refs, w)| && Backwards(refs, w)[p] == refs[j] && Backwards(refs, w)[q] == refs[i]
  {
    hide IsWorkload, Backwards;
    var n := |refs| - 1;
    BackwardsLast(refs, w);
    if j < n {
      p, q := BackwardsReverses(refs[..n], w, i, j);
      if IsWorkload(refs[n]) == w {
        p, q := p + 1, q + 1;
      }
    } else {
      BackwardsMembers(refs[..n], w);
      assert refs[i] in refs[..n];
      var k :| 0 <= k < |Backwards(refs[..n], w)| && Backwards(refs[..n], w)[k] == refs[i];
      p, q := 0, k + 1;
    }
  }
}
