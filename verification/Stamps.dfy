/** Ownership stamps: written on every object of a plan, read back from live objects. */
module Stamps {
  import opened Prelude
  import opened Decimal
  import opened Manifests

  /** The stamp a plan expects; the generation is kept in its printed form. */
  datatype StampFields = StampFields(
    materializationId: string,
    instanceId: string,
    instanceGeneration: string,
    renderedHash: Option<string>)

  type ExpectedStamp = s: StampFields | Parse(s.instanceGeneration).Some?
    witness StampFields("", "", "0", None)

  function Expect(id: string, instanceId: string, generation: Generation, hash: Option<string>): (r: ExpectedStamp)
    ensures Parse(r.instanceGeneration) == Some(generation)
  {
    ParsePrint(generation);
    StampFields(id, instanceId, Print(generation), hash)
  }

  // ---- stamping ----------------------------------------------------------

  function StampTags(t: Tags, m: Materialization): Tags {
    Tags(
      t.labels[LABEL_MANAGED_BY := LABEL_MANAGED_BY_VALUE]
              [LABEL_INSTANCE_ID := m.instanceId]
              [LABEL_INSTANCE_GENERATION := Print(m.projectionGeneration)],
      t.annotations[ANNOTATION_MATERIALIZATION_ID := m.id] - {ANNOTATION_RENDERED_HASH})
  }

  function HashTags(t: Tags, hash: string): Tags { t.(annotations := t.annotations[ANNOTATION_RENDERED_HASH := hash]) }

  function BareTags(t: Tags): Tags { t.(annotations := t.annotations - {ANNOTATION_RENDERED_HASH}) }

  function StampBase(o: KubernetesObject, m: Materialization): KubernetesObject {
    MapTags(o, (t: Tags) => StampTags(t, m))
  }

  function StampHash(o: KubernetesObject, hash: string): KubernetesObject {
    MapTags(o, (t: Tags) => HashTags(t, hash))
  }

  /** The hash is taken over the object without any hash annotation; `render` hashes the rendered text. */
  function RenderedHash(o: KubernetesObject, render: KubernetesObject -> string): string {
    render(MapTags(o, BareTags))
  }

  function Stamped(o: KubernetesObject, m: Materialization, render: KubernetesObject -> string): KubernetesObject {
    var base := StampBase(o, m);
    StampHash(base, RenderedHash(base, render))
  }

  // ---- reading stamps ----------------------------------------------------

  function Tag(tags: map<string, string>, key: string): Option<string> {
    if key in tags then Some(tags[key]) else None
  }

  function OwnershipMismatch(live: Tags, expected: ExpectedStamp): Option<string> {
    if Tag(live.labels, LABEL_MANAGED_BY) != Some(LABEL_MANAGED_BY_VALUE) then Some("managed_by_mismatch")
    else if Tag(live.labels, LABEL_INSTANCE_ID) != Some(expected.instanceId) then Some("instance_id_mismatch")
    else if Tag(live.annotations, ANNOTATION_MATERIALIZATION_ID) != Some(expected.materializationId) then
      Some("materialization_id_mismatch")
    else
      var stamped := Tag(live.labels, LABEL_INSTANCE_GENERATION);
      var liveGeneration := if stamped.Some? then Parse(stamped.value) else None;
      var generation := Parse(expected.instanceGeneration).value;
      if liveGeneration.Some? && liveGeneration.value < generation then None
      else if liveGeneration != Some(generation) then Some("generation_mismatch")
      else if expected.renderedHash.Some?
        && Tag(live.annotations, ANNOTATION_RENDERED_HASH) != expected.renderedHash then
        Some("rendered_hash_mismatch")
      else None
  }

  predicate Owns(expected: ExpectedStamp, live: Tags) { OwnershipMismatch(live, expected).None? }

  datatype ObservationState =
    | Missing | PresentOwned | PresentUnowned | DeletingOwned | DeletingUnowned | DeleteBlocked | ApplyRejected
    | InspectFailed | Unready

  datatype ObjectPlan = ObjectPlan(objectRef: ObjectRef, expected: ExpectedStamp)

  datatype Observation = Observation(
    objectRef: ObjectRef,
    state: ObservationState,
    reason: Option<string>,
    identity: Option<LiveIdentity>,
    reclaimPolicy: Option<string>,
    finalizers: seq<string>)

  function Classify(planned: ObjectPlan, inspection: Option<LiveObject>): (r: Observation)
    ensures r.objectRef == planned.objectRef
    ensures r.state == Missing <==> inspection.None?
    ensures r.identity.Some? <==> inspection.Some?
    ensures inspection.Some? ==>
      && r.identity == Some(inspection.value.identity)
      && r.reclaimPolicy == inspection.value.reclaimPolicy
      && (IsConflict(r) <==> !Owns(planned.expected, inspection.value.tags))
      && (r.state == PresentOwned <==> Owns(planned.expected, inspection.value.tags) && !inspection.value.deleting)
  {
    match inspection
    case None => Observation(planned.objectRef, Missing, None, None, None, [])
    case Some(live) =>
      var reason := OwnershipMismatch(live.tags, planned.expected);
      var state :=
        if live.deleting then (if reason.None? then DeletingOwned else DeletingUnowned)
        else if reason.None? then PresentOwned else PresentUnowned;
      Observation(planned.objectRef, state, reason, Some(live.identity), live.reclaimPolicy, live.finalizers)
  }

  predicate IsConflict(o: Observation) { o.state == PresentUnowned || o.state == DeletingUnowned }

  // ---- stamping and reading are inverse ----------------------------------

  lemma KeysDiffer()
    ensures LABEL_MANAGED_BY != LABEL_INSTANCE_ID
    ensures LABEL_MANAGED_BY != LABEL_INSTANCE_GENERATION
    ensures LABEL_INSTANCE_ID != LABEL_INSTANCE_GENERATION
    ensures ANNOTATION_MATERIALIZATION_ID != ANNOTATION_RENDERED_HASH
    ensures ANNOTATION_TEMPLATE_GENERATION != ANNOTATION_RENDERED_HASH
    ensures ANNOTATION_TEMPLATE_GENERATION != ANNOTATION_MATERIALIZATION_ID
  {
    assert LABEL_MANAGED_BY[0] == 'a' && LABEL_INSTANCE_ID[0] == 's' && LABEL_INSTANCE_GENERATION[0] == 's';
    assert |LABEL_INSTANCE_ID| == 25 && |LABEL_INSTANCE_GENERATION| == 33;
    assert |ANNOTATION_MATERIALIZATION_ID| == 32 && |ANNOTATION_RENDERED_HASH| == 27
      && |ANNOTATION_TEMPLATE_GENERATION| == 33;
  }

  /** What a stamped set of tags says under every key. */
  lemma StampedTags(t: Tags, m: Materialization, hash: string, key: string)
    ensures
      var s := HashTags(StampTags(t, m), hash);
      && Tag(s.labels, LABEL_MANAGED_BY) == Some(LABEL_MANAGED_BY_VALUE)
      && Tag(s.labels, LABEL_INSTANCE_ID) == Some(m.instanceId)
      && Tag(s.labels, LABEL_INSTANCE_GENERATION) == Some(Print(m.projectionGeneration))
      && Tag(s.annotations, ANNOTATION_MATERIALIZATION_ID) == Some(m.id)
      && Tag(s.annotations, ANNOTATION_RENDERED_HASH) == Some(hash)
      && (key !in {LABEL_MANAGED_BY, LABEL_INSTANCE_ID, LABEL_INSTANCE_GENERATION} ==>
        Tag(s.labels, key) == Tag(t.labels, key))
      && (key !in {ANNOTATION_MATERIALIZATION_ID, ANNOTATION_RENDERED_HASH} ==>
        Tag(s.annotations, key) == Tag(t.annotations, key))
  {
    hide Print;
    KeysDiffer();
  }

  lemma StampedMeta(o: KubernetesObject, m: Materialization, render: KubernetesObject -> string)
    ensures
      var s, hash := Stamped(o, m, render), RenderedHash(StampBase(o, m), render);
      && s.metadata.tags == HashTags(StampTags(o.metadata.tags, m), hash)
      && TemplateTags(s) ==
        (match TemplateTags(o) case Some(t) => Some(HashTags(StampTags(t, m), hash)) case None => None)
      && RefOf(s) == RefOf(o)
  {
    hide MapTags, StampTags, HashTags, RefOf, TemplateTags;
  }

  /**
   Which plans own an object stamped for `m`: those of its materialization, not
   earlier, and with its hash if as early.
   */
  lemma StampOwnership(o: KubernetesObject, m: Materialization, render: KubernetesObject -> string,
                       expected: ExpectedStamp)
    ensures
      var generation := Parse(expected.instanceGeneration).value;
      var base := StampBase(o, m);
      Owns(expected, Stamped(o, m, render).metadata.tags) <==>
        && expected.materializationId == m.id
        && expected.instanceId == m.instanceId
        && (m.projectionGeneration < generation
            || (m.projectionGeneration == generation
                && (expected.renderedHash.None? || expected.renderedHash == Some(RenderedHash(base, render)))))
  {
    hide Print, Parse, Stamped, StampTags, HashTags, RenderedHash, MapTags, Tag;
    StampedMeta(o, m, render);
    StampedTags(o.metadata.tags, m, RenderedHash(StampBase(o, m), render), "");
    ParsePrint(m.projectionGeneration);
  }

  /** A plan owns what it stamped; a later plan of the same materialization does, and an earlier one does not. */
  lemma StampOrdered(o: KubernetesObject, m: Materialization, render: KubernetesObject -> string,
                     generation: Generation, hash: Option<string>)
    ensures
      var live := Stamped(o, m, render).metadata.tags;
      && Owns(Expect(m.id, m.instanceId, m.projectionGeneration, Some(RenderedHash(StampBase(o, m), render))), live)
      && Owns(Expect(m.id, m.instanceId, m.projectionGeneration, None), live)
      && (generation > m.projectionGeneration ==> Owns(Expect(m.id, m.instanceId, generation, hash), live))
      && (generation < m.projectionGeneration ==> !Owns(Expect(m.id, m.instanceId, generation, hash), live))
  {
    hide Owns, Stamped, Parse, Print;
    var own := Some(RenderedHash(StampBase(o, m), render));
    StampOwnership(o, m, render, Expect(m.id, m.instanceId, m.projectionGeneration, own));
    StampOwnership(o, m, render, Expect(m.id, m.instanceId, m.projectionGeneration, None));
    StampOwnership(o, m, render, Expect(m.id, m.instanceId, generation, hash));
  }

  /**
   For any live tags at all, who owns them: the managed-by label, both IDs, and
   a generation that parses and is earlier, or the same with the same hash if
   one is expected.
   */
  lemma OwnsExactly(live: Tags, expected: ExpectedStamp)
    ensures Owns(expected, live) <==>
      && LABEL_MANAGED_BY in live.labels && live.labels[LABEL_MANAGED_BY] == LABEL_MANAGED_BY_VALUE
      && LABEL_INSTANCE_ID in live.labels && live.labels[LABEL_INSTANCE_ID] == expected.instanceId
      && ANNOTATION_MATERIALIZATION_ID in live.annotations
      && live.annotations[ANNOTATION_MATERIALIZATION_ID] == expected.materializationId
      && LABEL_INSTANCE_GENERATION in live.labels
      && exists g, h :: Parse(live.labels[LABEL_INSTANCE_GENERATION]) == Some(g)
           && Parse(expected.instanceGeneration) == Some(h)
           && (g < h || (g == h && (expected.renderedHash.Some? ==>
                 ANNOTATION_RENDERED_HASH in live.annotations
                   && live.annotations[ANNOTATION_RENDERED_HASH] == expected.renderedHash.value)))
  {
    hide Parse;
  }

  /** For any live tags at all, a later generation of the same materialization owns whatever an earlier one owns. */
  lemma OwnershipGrows(live: Tags, earlier: ExpectedStamp, later: ExpectedStamp)
    requires earlier.materializationId == later.materializationId && earlier.instanceId == later.instanceId
    requires Parse(earlier.instanceGeneration).value < Parse(later.instanceGeneration).value
    requires Owns(earlier, live)
    ensures Owns(later, live)
  {
    hide Parse;
  }

  /** Stamping a hash in does not change the hash. */
  lemma HashStable(o: KubernetesObject, hash: string, render: KubernetesObject -> string)
    ensures RenderedHash(StampHash(o, hash), render) == RenderedHash(o, render)
  {
    forall t: Tags ensures BareTags(HashTags(t, hash)) == BareTags(t) {
      assert (t.annotations[ANNOTATION_RENDERED_HASH := hash] - {ANNOTATION_RENDERED_HASH}) ==
        t.annotations - {ANNOTATION_RENDERED_HASH};
    }
  }

  lemma RestampTags(t: Tags, m: Materialization, hash: string)
    ensures StampTags(HashTags(StampTags(t, m), hash), m) == StampTags(t, m)
  {
    hide Print;
    KeysDiffer();
    var once := StampTags(t, m);
    var twice := StampTags(HashTags(once, hash), m);
    assert twice.labels == once.labels;
    assert twice.annotations == once.annotations;
  }

  /** Stamping is idempotent: a second pass finds the same hash and changes nothing. */
  lemma StampTwice(o: KubernetesObject, m: Materialization, render: KubernetesObject -> string)
    ensures Stamped(Stamped(o, m, render), m, render) == Stamped(o, m, render)
  {
    hide StampTags, HashTags, BareTags;
    var hash := RenderedHash(StampBase(o, m), render);
    forall t: Tags ensures StampTags(HashTags(StampTags(t, m), hash), m) == StampTags(t, m) {
      RestampTags(t, m, hash);
    }
    assert StampBase(Stamped(o, m, render), m) == StampBase(o, m);
  }

  /**
   Stamping leaves the reference, the spec and every other tag alone, on the
   object and on its pod template.
   */
  lemma StampKeeps(o: KubernetesObject, m: Materialization, render: KubernetesObject -> string, key: string)
    ensures
      var s := Stamped(o, m, render);
      && RefOf(s) == RefOf(o) && s.spec == o.spec
      && (o.PersistentVolume? ==> s.PersistentVolume? && s.reclaimPolicy == o.reclaimPolicy)
      && KeepsTag(o.metadata.tags, s.metadata.tags, key)
      && (TemplateTags(o).Some? <==> TemplateTags(s).Some?)
      && (TemplateTags(o).Some? ==> KeepsTag(TemplateTags(o).value, TemplateTags(s).value, key))
  {
    hide StampTags, HashTags, RenderedHash, MapTags, Tag, RefOf;
    var hash := RenderedHash(StampBase(o, m), render);
    StampedMeta(o, m, render);
    StampedTags(o.metadata.tags, m, hash, key);
    if TemplateTags(o).Some? {
      StampedTags(TemplateTags(o).value, m, hash, key);
    }
  }

  predicate KeepsTag(before: Tags, after: Tags, key: string) {
    && (key !in {LABEL_MANAGED_BY, LABEL_INSTANCE_ID, LABEL_INSTANCE_GENERATION} ==>
          Tag(after.labels, key) == Tag(before.labels, key))
    && (key !in {ANNOTATION_MATERIALIZATION_ID, ANNOTATION_RENDERED_HASH} ==>
          Tag(after.annotations, key) == Tag(before.annotations, key))
  }
}
