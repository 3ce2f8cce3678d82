/** Lifecycle generations and ownership stamps together: a late driver cannot touch a newer cycle's objects. */
module Generations {
  import opened Prelude
  import opened Decimal
  import opened Manifests
  import opened Stamps
  import L = Lifecycle
  import opened LifecycleLaws
  import opened LifecycleRuns

  /** A step leaves a row's stamp alone or gives it a generation later than any so far. */
  lemma RestampIsNew(s: L.Store, op: L.Op, target: string)
    requires Inv(s) && target in L.Step(s, op).rows
    ensures
      var after := L.Step(s, op).rows[target].stamp;
      || (target in s.rows && after == s.rows[target].stamp)
      || (s.watermark.Some? ==> after > s.watermark.value)
  {
    hide Inv;
    if s.instance.Some? {
      InstanceKnown(s);
    }
  }

  lemma {:induction false} LaterStamp(s: L.Store, ops: seq<L.Op>, target: string)
    requires Inv(s) && target in s.rows && target in L.Run(s, ops).rows
    ensures
      var after := L.Run(s, ops).rows[target].stamp;
      after == s.rows[target].stamp || (s.watermark.Some? ==> after > s.watermark.value)
    decreases |ops|
  {
    hide Inv, L.Step;
    RowHolds(s, target);
    if ops != [] {
      var n := |ops| - 1;
      var before := L.Run(s, ops[..n]);
      RunGrows(s, ops[..n]);
      RestampIsNew(before, ops[n], target);
      WatermarkGrows(s, before);
      if target in before.rows {
        LaterStamp(s, ops[..n], target);
      }
    }
  }

  lemma WatermarkGrows(s: L.Store, s': L.Store)
    requires Grows(s, s') && s.watermark.Some?
    ensures s'.watermark.Some? && s.watermark.value <= s'.watermark.value
  {
  }

  /**
   A row was Pending at `s` and, after any run, is Pending for another wake. The
   first driver's plan owns nothing the second one stamps, whatever hash it
   expects; the second one's plan owns whatever the first left behind.
   */
  lemma StaleDriverOwnsNothingNewer(s: L.Store, ops: seq<L.Op>, target: string, id: string, instanceId: string,
                                    o: KubernetesObject, render: KubernetesObject -> string, hash: Option<string>)
    requires Inv(s) && target in s.rows && s.rows[target].state == L.PendingRow
    requires target in L.Run(s, ops).rows && L.Run(s, ops).rows[target].state == L.PendingRow
    requires L.Run(s, ops).rows[target].stamp != s.rows[target].stamp
    requires s.rows[target].projection <= U64_MAX && L.Run(s, ops).rows[target].projection <= U64_MAX
    ensures
      var early, late := s.rows[target].projection, L.Run(s, ops).rows[target].projection;
      && early < late
      && !Owns(Expect(id, instanceId, early, hash),
        Stamped(o, Materialization(id, instanceId, late, []), render).metadata.tags)
      && Owns(Expect(id, instanceId, late, hash),
        Stamped(o, Materialization(id, instanceId, early, []), render).metadata.tags)
  {
    hide Inv, L.Run, Owns, Stamped, Expect;
    RunGrows(s, ops);
    LaterStamp(s, ops, target);
    RowHolds(s, target);
    RowHolds(L.Run(s, ops), target);
    var early, late := s.rows[target].projection, L.Run(s, ops).rows[target].projection;
    StampOrdered(o, Materialization(id, instanceId, late, []), render, early, hash);
    StampOrdered(o, Materialization(id, instanceId, early, []), render, late, hash);
  }
}
