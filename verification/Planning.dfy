/** From a rendered manifest to a projection plan, and the orders objects are applied and deleted in. */
module Planning {
  import opened Prelude
  import opened Decimal
  import opened Manifests
  import opened Stamps
  import opened ClientErrors

  datatype ProjectionPlan = ProjectionPlan(
    materializationId: string,
    instanceId: string,
    instanceGeneration: Generation,
    manifest: Option<Manifest>,
    objects: seq<ObjectPlan>)

  type Objects = seq<ManifestObject>

  function Refs(s: Objects): (r: seq<ObjectRef>)
    ensures |r| == |s|
    ensures forall i :: 0 <= i < |s| ==> r[i] == RefOf(s[i].resource)
  {
    seq(|s|, i requires 0 <= i < |s| => RefOf(s[i].resource))
  }

  // ---- apply order -------------------------------------------------------

  function Rank(o: ApplyOrder): nat {
    match o
    case VolumeOrder => 0
    case ClaimOrder => 1
    case SecretOrder => 2
    case ServiceOrder => 3
    case WorkloadOrder => 4
  }

  /** The objects of one apply order, as they come. */
  function Group(s: Objects, o: ApplyOrder): (r: Objects)
    ensures forall x :: x in r ==> x in s && x.applyOrder == o
  {
    if s == [] then []
    else
      var rest := Group(s[..|s| - 1], o);
      if s[|s| - 1].applyOrder == o then rest + [s[|s| - 1]] else rest
  }

  /** The objects sorted by apply order, ties as they come. */
  function Ordered(s: Objects): Objects {
    Group(s, VolumeOrder) + Group(s, ClaimOrder) + Group(s, SecretOrder) + Group(s, ServiceOrder)
      + Group(s, WorkloadOrder)
  }

  ghost predicate SortedByOrder(s: Objects) {
    forall i, j :: 0 <= i < j < |s| ==> Rank(s[i].applyOrder) <= Rank(s[j].applyOrder)
  }

  lemma {:induction false} GroupNone(s: Objects, o: ApplyOrder)
    requires forall x :: x in s ==> x.applyOrder != o
    ensures Group(s, o) == []
  {
    if s != [] {
      GroupNone(s[..|s| - 1], o);
    }
  }

  lemma {:induction false} GroupAll(s: Objects, o: ApplyOrder)
    requires forall x :: x in s ==> x.applyOrder == o
    ensures Group(s, o) == s
  {
    if s != [] {
      GroupAll(s[..|s| - 1], o);
    }
  }

  lemma {:induction false} GroupAppend(a: Objects, b: Objects, o: ApplyOrder)
    ensures Group(a + b, o) == Group(a, o) + Group(b, o)
  {
    if b == [] {
      assert a + b == a;
    } else {
      assert (a + b)[..|a + b| - 1] == a + b[..|b| - 1];
      GroupAppend(a, b[..|b| - 1], o);
    }
  }

  lemma GroupOfGroup(s: Objects, p: ApplyOrder, o: ApplyOrder)
    ensures Group(Group(s, p), o) == if p == o then Group(s, o) else []
  {
    if p == o {
      GroupAll(Group(s, p), o);
    } else {
      GroupNone(Group(s, p), o);
    }
  }

  /** Sorting keeps each group as it was, so walking the sorted objects group by group walks all of them. */
  lemma GroupOrdered(s: Objects, o: ApplyOrder)
    ensures Group(Ordered(s), o) == Group(s, o)
  {
    hide Group;
    var v, c, e, r, w := Group(s, VolumeOrder), Group(s, ClaimOrder), Group(s, SecretOrder), Group(s, ServiceOrder),
      Group(s, WorkloadOrder);
    GroupAppend(v + c + e + r, w, o);
    GroupAppend(v + c + e, r, o);
    GroupAppend(v + c, e, o);
    GroupAppend(v, c, o);
    GroupOfGroup(s, VolumeOrder, o);
    GroupOfGroup(s, ClaimOrder, o);
    GroupOfGroup(s, SecretOrder, o);
    GroupOfGroup(s, ServiceOrder, o);
    GroupOfGroup(s, WorkloadOrder, o);
  }

  lemma {:induction false} SortedIsOrdered(t: Objects)
    requires SortedByOrder(t)
    ensures Ordered(t) == t
  {
    if t != [] {
      var n := |t| - 1;
      var x := t[n];
      SortedIsOrdered(t[..n]);
      assert t == t[..n] + [x];
      forall o: ApplyOrder | Rank(o) > Rank(x.applyOrder) ensures Group(t[..n], o) == [] {
        GroupNone(t[..n], o);
      }
      LastGroupGrows(t[..n], x);
    }
  }

  lemma LastGroupGrows(s: Objects, x: ManifestObject)
    requires forall o: ApplyOrder :: Rank(o) > Rank(x.applyOrder) ==> Group(s, o) == []
    ensures Ordered(s + [x]) == Ordered(s) + [x]
  {
    hide Group;
    GroupsStep(s, x);
    var v, c, e, r, w := Group(s, VolumeOrder), Group(s, ClaimOrder), Group(s, SecretOrder), Group(s, ServiceOrder),
      Group(s, WorkloadOrder);
    match x.applyOrder
    case VolumeOrder => NoTail(v, [x]);
    case ClaimOrder => AddedLast(v, c, [x]);
    case SecretOrder => AddedLast(v + c, e, [x]);
    case ServiceOrder => AddedLast(v + c + e, r, [x]);
    case WorkloadOrder => AddedLast(v + c + e + r, w, [x]);
  }

  lemma NoTail<T>(a: seq<T>, x: seq<T>)
    ensures a + [] == a && (a + x) + [] == a + x
  {
  }

  lemma AddedLast<T>(a: seq<T>, b: seq<T>, x: seq<T>)
    ensures a + (b + x) == a + b + x
    ensures a + b + [] == a + b && a + b + x + [] == a + b + x
  {
  }

  /** Adding an object adds it to its own group and no other. */
  lemma GroupsStep(s: Objects, x: ManifestObject)
    ensures forall o: ApplyOrder :: Group(s + [x], o) == Group(s, o) + if o == x.applyOrder then [x] else []
  {
    assert (s + [x])[..|s|] == s;
  }

  lemma OrderedIsSorted(s: Objects)
    ensures SortedByOrder(Ordered(s))
  {
  }

  ghost predicate SameGroups(s: Objects, t: Objects) { forall o: ApplyOrder :: Group(t, o) == Group(s, o) }

  /** `Ordered` is the one stable sort: sorted, and each group in its given order. */
  lemma StableSortUnique(s: Objects, t: Objects)
    ensures t == Ordered(s) <==> SortedByOrder(t) && SameGroups(s, t)
  {
    hide Group, SortedByOrder;
    OrderedIsSorted(s);
    forall o: ApplyOrder ensures Group(Ordered(s), o) == Group(s, o) {
      GroupOrdered(s, o);
    }
    if SortedByOrder(t) && SameGroups(s, t) {
      SortedIsOrdered(t);
      assert Group(t, VolumeOrder) == Group(s, VolumeOrder) && Group(t, ClaimOrder) == Group(s, ClaimOrder);
      assert Group(t, SecretOrder) == Group(s, SecretOrder) && Group(t, ServiceOrder) == Group(s, ServiceOrder);
      assert Group(t, WorkloadOrder) == Group(s, WorkloadOrder);
    }
  }

  // Counting what satisfies a predicate, to compare an order with what it rearranges.
  ghost function Count(s: Objects, p: ManifestObject -> bool): nat {
    if s == [] then 0 else Count(s[..|s| - 1], p) + (if p(s[|s| - 1]) then 1 else 0)
  }

  lemma {:induction false} CountAppend(a: Objects, b: Objects, p: ManifestObject -> bool)
    ensures Count(a + b, p) == Count(a, p) + Count(b, p)
  {
    if b == [] {
      assert a + b == a;
    } else {
      assert (a + b)[..|a + b| - 1] == a + b[..|b| - 1];
      CountAppend(a, b[..|b| - 1], p);
    }
  }

  lemma CountGroups(s: Objects, p: ManifestObject -> bool)
    ensures Count(Ordered(s), p) ==
      Count(Group(s, VolumeOrder), p) + Count(Group(s, ClaimOrder), p) + Count(Group(s, SecretOrder), p)
      + Count(Group(s, ServiceOrder), p) + Count(Group(s, WorkloadOrder), p)
  {
    hide Count, Group;
    var v, c, e, t, w := Group(s, VolumeOrder), Group(s, ClaimOrder), Group(s, SecretOrder), Group(s, ServiceOrder),
      Group(s, WorkloadOrder);
    CountAppend(v + c + e + t, w, p);
    CountAppend(v + c + e, t, p);
    CountAppend(v + c, e, p);
    CountAppend(v, c, p);
  }

  lemma CountGroupStep(s: Objects, x: ManifestObject, o: ApplyOrder, p: ManifestObject -> bool)
    ensures Count(Group(s + [x], o), p) == Count(Group(s, o), p) + if o == x.applyOrder && p(x) then 1 else 0
  {
    hide Group;
    GroupsStep(s, x);
    CountAppend(Group(s, o), if o == x.applyOrder then [x] else [], p);
  }

  lemma {:induction false} CountOrdered(s: Objects, p: ManifestObject -> bool)
    ensures Count(Ordered(s), p) == Count(s, p)
  {
    hide Ordered, Group;
    CountGroups(s, p);
    if s != [] {
      var n := |s| - 1;
      var x := s[n];
      assert s == s[..n] + [x];
      CountOrdered(s[..n], p);
      CountGroups(s[..n], p);
      CountGroupStep(s[..n], x, VolumeOrder, p);
      CountGroupStep(s[..n], x, ClaimOrder, p);
      CountGroupStep(s[..n], x, SecretOrder, p);
      CountGroupStep(s[..n], x, ServiceOrder, p);
      CountGroupStep(s[..n], x, WorkloadOrder, p);
    } else {
      forall o: ApplyOrder ensures Group(s, o) == [] {
        GroupNone(s, o);
      }
    }
  }

  ghost function Being(x: ManifestObject): ManifestObject -> bool { (y: ManifestObject) => y == x }

  ghost function Named(r: ObjectRef): ManifestObject -> bool { (y: ManifestObject) => RefOf(y.resource) == r }

  lemma {:induction false} CountSame(s: Objects, x: ManifestObject)
    ensures Count(s, Being(x)) == multiset(s)[x]
  {
    if s != [] {
      assert s == s[..|s| - 1] + [s[|s| - 1]];
      CountSame(s[..|s| - 1], x);
    }
  }

  lemma {:induction false} CountRefs(s: Objects, r: ObjectRef)
    ensures Count(s, Named(r)) == multiset(Refs(s))[r]
  {
    hide RefOf, Refs;
    if s == [] {
      LastRef(s);
    } else {
      CountRefs(s[..|s| - 1], r);
      LastRef(s);
      OneMoreOf(Refs(s[..|s| - 1]), RefOf(s[|s| - 1].resource), r);
    }
  }

  lemma LastRef(s: Objects)
    ensures Refs(s) == if s == [] then [] else Refs(s[..|s| - 1]) + [RefOf(s[|s| - 1].resource)]
  {
    hide RefOf;
  }

  lemma OneMoreOf<T>(s: seq<T>, x: T, y: T)
    ensures multiset(s + [x])[y] == multiset(s)[y] + if x == y then 1 else 0
  {
  }

  /** Sorting rearranges: nothing is lost or repeated. */
  lemma OrderedPermutes(s: Objects)
    ensures multiset(Ordered(s)) == multiset(s)
    ensures multiset(Refs(Ordered(s))) == multiset(Refs(s))
  {
    hide Ordered, Refs;
    forall x ensures multiset(Ordered(s))[x] == multiset(s)[x] {
      CountSame(s, x);
      CountSame(Ordered(s), x);
      CountOrdered(s, Being(x));
    }
    forall r ensures multiset(Refs(Ordered(s)))[r] == multiset(Refs(s))[r] {
      CountRefs(s, r);
      CountRefs(Ordered(s), r);
      CountOrdered(s, Named(r));
    }
  }

  lemma OrderedMembers(s: Objects, x: ManifestObject)
    ensures x in Ordered(s) <==> x in s
  {
    OrderedPermutes(s);
    assert x in Ordered(s) <==> x in multiset(Ordered(s));
    assert x in s <==> x in multiset(s);
  }

  // ---- validation --------------------------------------------------------

  const DNS_LABEL_MAX_LEN: nat := 63

  predicate IsLower(c: char) { 'a' <= c <= 'z' }

  predicate IsDnsLabel(s: string) {
    && 0 < |s| <= DNS_LABEL_MAX_LEN
    && (forall i :: 0 <= i < |s| ==> IsLower(s[i]) || IsDigit(s[i]) || s[i] == '-')
    && s[0] != '-' && s[|s| - 1] != '-'
  }

  function RefFault(r: ObjectRef): Option<ManifestFault> {
    if !IsDnsLabel(r.name) then Some(BadName(r))
    else if r.kind == "PersistentVolume" then
      if r.namespace == "" then None else Some(NotClusterScoped(r))
    else if r.kind in {"Deployment", "StatefulSet", "Service", "Secret", "PersistentVolumeClaim"} then
      if IsDnsLabel(r.namespace) then None else Some(BadNamespace(r))
    else Some(UnsupportedKind(r))
  }

  method ValidateRefs(refs: seq<ObjectRef>) returns (r: Result<(), MaterializerError>)
    ensures r.Ok? <==> (forall i :: 0 <= i < |refs| ==> RefFault(refs[i]).None?) && Distinct(refs)
    ensures r.Err? ==> r.error.InvalidManifest?
  {
    hide RefFault;
    var seen := {};
    for i := 0 to |refs|
      invariant forall k :: 0 <= k < i ==> RefFault(refs[k]).None?
      invariant forall x :: x in seen <==> x in refs[..i]
      invariant Distinct(refs[..i])
    {
      var fault := RefFault(refs[i]);
      if fault.Some? {
        return Err(InvalidManifest(fault.value));
      }
      if refs[i] in seen {
        return Err(InvalidManifest(DuplicateRef(refs[i])));
      }
      seen := seen + {refs[i]};
    }
    assert refs[..|refs|] == refs;
    return Ok(());
  }

  /** One set of tags carries the printed generations the manifest announces. */
  predicate Marked(t: Tags, instance: Generation, template: Option<Generation>) {
    && Tag(t.labels, LABEL_INSTANCE_GENERATION) == Some(Print(instance))
    && (template.Some? ==> Tag(t.annotations, ANNOTATION_TEMPLATE_GENERATION) == Some(Print(template.value)))
  }

  predicate GenerationsMarked(o: KubernetesObject, instance: Generation, template: Option<Generation>) {
    && Marked(o.metadata.tags, instance, template)
    && (TemplateTags(o).Some? ==> Marked(TemplateTags(o).value, instance, template))
  }

  method ValidateGenerations(manifest: Manifest) returns (r: Result<(), MaterializerError>)
    ensures r.Ok? <==> forall i :: 0 <= i < |manifest.objects| ==>
      GenerationsMarked(manifest.objects[i].resource, manifest.instanceGeneration, manifest.templateGeneration)
    ensures r.Err? ==> r.error.InvalidManifest?
  {
    for i := 0 to |manifest.objects|
      invariant forall k :: 0 <= k < i ==>
        GenerationsMarked(manifest.objects[k].resource, manifest.instanceGeneration, manifest.templateGeneration)
    {
      var resource := manifest.objects[i].resource;
      if !Marked(resource.metadata.tags, manifest.instanceGeneration, manifest.templateGeneration) {
        return Err(InvalidManifest(WrongGeneration(RefOf(resource))));
      }
      var template := TemplateTags(resource);
      if template.Some? && !Marked(template.value, manifest.instanceGeneration, manifest.templateGeneration) {
        return Err(InvalidManifest(WrongGeneration(RefOf(resource))));
      }
    }
    return Ok(());
  }

  /** What `RenderedRefs` accepts. */
  ghost predicate Renderable(manifest: Manifest) {
    && (forall i :: 0 <= i < |manifest.objects| ==>
          GenerationsMarked(manifest.objects[i].resource, manifest.instanceGeneration, manifest.templateGeneration))
    && GoodRefs(manifest.objects)
  }

  ghost predicate GoodRefs(s: Objects) {
    && (forall x :: x in s ==> RefFault(RefOf(x.resource)).None?)
    && Distinct(Refs(s))
  }

  method RenderedRefs(manifest: Manifest) returns (r: Result<seq<ObjectRef>, MaterializerError>)
    ensures r.Ok? <==> Renderable(manifest)
    ensures r.Ok? ==> r.value == Refs(Ordered(manifest.objects))
    ensures r.Err? ==> r.error.InvalidManifest?
  {
    hide Ordered, RefFault, GenerationsMarked, Distinct;
    var generations := ValidateGenerations(manifest);
    if generations.Err? {
      return Err(generations.error);
    }
    var refs := Refs(Ordered(manifest.objects));
    var valid := ValidateRefs(refs);
    GoodRefsOrdered(manifest.objects);
    assert valid.Ok? <==> GoodRefs(Ordered(manifest.objects));
    if valid.Err? {
      return Err(valid.error);
    }
    return Ok(refs);
  }

  /** Validating the sorted references validates the manifest's own. */
  lemma GoodRefsOrdered(s: Objects)
    ensures GoodRefs(Ordered(s)) <==> GoodRefs(s)
  {
    hide RefFault, Ordered, Refs;
    OrderedPermutes(s);
    forall x ensures x in Ordered(s) <==> x in s {
      OrderedMembers(s, x);
    }
    if Distinct(Refs(s)) {
      RearrangedDistinct(Refs(s), Refs(Ordered(s)));
    }
    if Distinct(Refs(Ordered(s))) {
      RearrangedDistinct(Refs(Ordered(s)), Refs(s));
    }
  }
}
