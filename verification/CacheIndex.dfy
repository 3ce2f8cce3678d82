/**
 How one half of the cache indexes a line of entries. Every index is a function
 of the line: a table by identity, a FIFO order by sequence number, and an
 expiry order by (deadline, sequence number).
 */
module CacheIndex {
  import opened Prelude
  import opened CacheSpec
  import opened CacheLines

  datatype Entry<+B> = Entry(slot: Slot<B>, sequence: nat)

  type Entries<+B> = seq<Entry<B>>

  function Slots<B>(line: Entries<B>): (r: Line<B>)
    ensures |r| == |line|
    ensures forall i :: 0 <= i < |line| ==> r[i] == line[i].slot
  {
    seq(|line|, i requires 0 <= i < |line| => line[i].slot)
  }

  // ---- maps from lists of pairs ------------------------------------------

  function FromPairs<K, V>(s: seq<(K, V)>): map<K, V> {
    if s == [] then map[]
    else FromPairs(s[..|s| - 1])[s[|s| - 1].0 := s[|s| - 1].1]
  }

  ghost predicate DistinctKeys<K, V>(s: seq<(K, V)>) {
    forall i, j :: 0 <= i < j < |s| ==> s[i].0 != s[j].0
  }

  lemma {:induction false} PairsOnly<K, V>(s: seq<(K, V)>, k: K) returns (i: nat)
    requires k in FromPairs(s)
    ensures i < |s| && s[i].0 == k && FromPairs(s)[k] == s[i].1
  {
    if s[|s| - 1].0 == k {
      i := |s| - 1;
    } else {
      i := PairsOnly(s[..|s| - 1], k);
    }
  }

  lemma {:induction false} PairsHave<K, V>(s: seq<(K, V)>, i: nat)
    requires DistinctKeys(s) && i < |s|
    ensures s[i].0 in FromPairs(s) && FromPairs(s)[s[i].0] == s[i].1
  {
    if i < |s| - 1 {
      PairsHave(s[..|s| - 1], i);
    }
  }

  lemma {:induction false} PairsCount<K, V>(s: seq<(K, V)>)
    requires DistinctKeys(s)
    ensures |FromPairs(s)| == |s|
  {
    if s != [] {
      var shorter := s[..|s| - 1];
      PairsCount(shorter);
      if s[|s| - 1].0 in FromPairs(shorter) {
        var i := PairsOnly(shorter, s[|s| - 1].0);
        assert false;
      }
    }
  }

  lemma PairsAdd<K, V>(s: seq<(K, V)>, p: (K, V))
    ensures FromPairs(s + [p]) == FromPairs(s)[p.0 := p.1]
  {
    assert (s + [p])[..|s|] == s;
  }

  lemma {:induction false} PairsRemove<K, V>(s: seq<(K, V)>, k: nat)
    requires DistinctKeys(s) && k < |s|
    ensures FromPairs(RemoveAt(s, k)) == FromPairs(s) - {s[k].0}
  {
    var n := |s| - 1;
    var shorter := s[..n];
    if k == n {
      assert RemoveAt(s, k) == shorter;
      if s[n].0 in FromPairs(shorter) {
        var i := PairsOnly(shorter, s[n].0);
        assert false;
      }
    } else {
      PairsRemove(shorter, k);
      assert RemoveAt(s, k) == RemoveAt(shorter, k) + [s[n]];
      PairsAdd(RemoveAt(shorter, k), s[n]);
    }
  }

  /** Put another pair at position `k`, under the same key or a fresh one. */
  lemma {:induction false} PairsReplace<K, V>(s: seq<(K, V)>, k: nat, p: (K, V))
    requires DistinctKeys(s) && k < |s| && DistinctKeys(s[k := p])
    ensures FromPairs(s[k := p]) == (FromPairs(s) - {s[k].0})[p.0 := p.1]
  {
    var n := |s| - 1;
    var updated := s[k := p];
    if k == n {
      assert updated[..n] == s[..n] == RemoveAt(s, k);
      PairsRemove(s, k);
    } else {
      assert updated[..n] == s[..n][k := p];
      PairsReplace(s[..n], k, p);
      assert updated[k].0 != updated[n].0 && s[k].0 != s[n].0;
    }
  }

  // ---- the three indexes of a half ---------------------------------------

  function Due<B>(e: Entry<B>): (nat, nat) { (e.slot.expiresAt, e.sequence) }

  predicate DueBefore(a: (nat, nat), b: (nat, nat)) {
    a.0 < b.0 || (a.0 == b.0 && a.1 <= b.1)
  }

  function ByIdentity<B>(line: Entries<B>): seq<(RouteIdentity, Entry<B>)> {
    seq(|line|, i requires 0 <= i < |line| => (line[i].slot.identity, line[i]))
  }

  function BySequence<B>(line: Entries<B>): seq<(nat, RouteIdentity)> {
    seq(|line|, i requires 0 <= i < |line| => (line[i].sequence, line[i].slot.identity))
  }

  function ByDue<B>(line: Entries<B>): seq<((nat, nat), RouteIdentity)> {
    seq(|line|, i requires 0 <= i < |line| => (Due(line[i]), line[i].slot.identity))
  }

  /** Identities are unique and sequence numbers grow along the line up to the counter. */
  ghost predicate Queued<B>(line: Entries<B>, counter: nat) {
    && (forall i, j :: 0 <= i < j < |line| ==> line[i].slot.identity != line[j].slot.identity)
    && (forall i, j :: 0 <= i < j < |line| ==> line[i].sequence < line[j].sequence)
    && (forall i :: 0 <= i < |line| ==> line[i].sequence <= counter)
  }

  /** The three maps hold exactly one entry for each answer of the line. */
  ghost predicate Indexed<B>(
    line: Entries<B>,
    table: map<RouteIdentity, Entry<B>>,
    order: map<nat, RouteIdentity>,
    expiry: map<(nat, nat), RouteIdentity>,
    counter: nat)
  {
    && Queued(line, counter)
    && table == FromPairs(ByIdentity(line))
    && order == FromPairs(BySequence(line))
    && expiry == FromPairs(ByDue(line))
  }

  lemma QueuedKeys<B>(line: Entries<B>, counter: nat)
    requires Queued(line, counter)
    ensures DistinctKeys(ByIdentity(line)) && DistinctKeys(BySequence(line)) && DistinctKeys(ByDue(line))
    ensures DistinctIdentities(Slots(line))
    ensures |FromPairs(ByIdentity(line))| == |line|
  {
    assert DistinctKeys(ByIdentity(line));
    PairsCount(ByIdentity(line));
  }

  /** Where the table's entry sits in the line. */
  lemma Place<B>(line: Entries<B>, counter: nat, id: RouteIdentity) returns (k: nat)
    requires Queued(line, counter)
    requires id in FromPairs(ByIdentity(line))
    ensures k < |line| && line[k].slot.identity == id && FromPairs(ByIdentity(line))[id] == line[k]
  {
    k := PairsOnly(ByIdentity(line), id);
  }

  lemma Tabled<B>(line: Entries<B>, counter: nat, k: nat)
    requires Queued(line, counter) && k < |line|
    ensures line[k].slot.identity in FromPairs(ByIdentity(line))
    ensures FromPairs(ByIdentity(line))[line[k].slot.identity] == line[k]
  {
    QueuedKeys(line, counter);
    PairsHave(ByIdentity(line), k);
  }

  /** A probe of the table answers what a scan of the line would. */
  lemma Probe<B>(line: Entries<B>, counter: nat, id: RouteIdentity)
    requires Queued(line, counter)
    ensures
      var table := FromPairs(ByIdentity(line));
      Find(Slots(line), id) == if id in table then Some(table[id].slot) else None
  {
    var table, found := FromPairs(ByIdentity(line)), Find(Slots(line), id);
    if found.Some? {
      var i :| 0 <= i < |line| && Slots(line)[i] == found.value;
      Tabled(line, counter, i);
    } else if id in table {
      var k := Place(line, counter, id);
    }
  }

  lemma RemovedIndexed<B>(line: Entries<B>, counter: nat, k: nat)
    requires Queued(line, counter) && k < |line|
    ensures Queued(RemoveAt(line, k), counter)
    ensures FromPairs(ByIdentity(RemoveAt(line, k))) == FromPairs(ByIdentity(line)) - {line[k].slot.identity}
    ensures FromPairs(BySequence(RemoveAt(line, k))) == FromPairs(BySequence(line)) - {line[k].sequence}
    ensures FromPairs(ByDue(RemoveAt(line, k))) == FromPairs(ByDue(line)) - {Due(line[k])}
  {
    RemovedQueued(line, counter, k);
    QueuedKeys(line, counter);
    PairsRemove(ByIdentity(line), k);
    PairsRemove(BySequence(line), k);
    PairsRemove(ByDue(line), k);
    ProjectedRemove(line, k);
  }

  lemma RemovedQueued<B>(line: Entries<B>, counter: nat, k: nat)
    requires Queued(line, counter) && k < |line|
    ensures Queued(RemoveAt(line, k), counter)
  {
  }

  lemma ProjectedRemove<B>(line: Entries<B>, k: nat)
    requires k < |line|
    ensures ByIdentity(RemoveAt(line, k)) == RemoveAt(ByIdentity(line), k)
    ensures BySequence(RemoveAt(line, k)) == RemoveAt(BySequence(line), k)
    ensures ByDue(RemoveAt(line, k)) == RemoveAt(ByDue(line), k)
  {
  }

  lemma RemovedSlots<B>(line: Entries<B>, counter: nat, k: nat)
    requires Queued(line, counter) && k < |line|
    ensures Slots(RemoveAt(line, k)) == Without(Slots(line), line[k].slot.identity) == RemoveAt(Slots(line), k)
  {
    WithoutAt(Slots(line), k);
  }

  lemma AddedQueued<B>(line: Entries<B>, counter: nat, e: Entry<B>)
    requires Queued(line, counter)
    requires e.slot.identity !in FromPairs(ByIdentity(line)) && e.sequence > counter
    ensures Queued(line + [e], e.sequence)
  {
    hide FromPairs, ByIdentity;
    forall i | 0 <= i < |line| ensures line[i].slot.identity != e.slot.identity {
      Tabled(line, counter, i);
    }
  }

  lemma IndexesGrow<B>(line: Entries<B>, e: Entry<B>)
    ensures ByIdentity(line + [e]) == ByIdentity(line) + [(e.slot.identity, e)]
    ensures BySequence(line + [e]) == BySequence(line) + [(e.sequence, e.slot.identity)]
    ensures ByDue(line + [e]) == ByDue(line) + [(Due(e), e.slot.identity)]
    ensures Slots(line + [e]) == Slots(line) + [e.slot]
  {
  }

  lemma AddedIndexed<B>(line: Entries<B>, counter: nat, e: Entry<B>)
    requires Queued(line, counter)
    requires e.slot.identity !in FromPairs(ByIdentity(line)) && e.sequence > counter
    ensures Queued(line + [e], e.sequence)
    ensures FromPairs(ByIdentity(line + [e])) == FromPairs(ByIdentity(line))[e.slot.identity := e]
    ensures FromPairs(BySequence(line + [e])) == FromPairs(BySequence(line))[e.sequence := e.slot.identity]
    ensures FromPairs(ByDue(line + [e])) == FromPairs(ByDue(line))[Due(e) := e.slot.identity]
    ensures Slots(line + [e]) == Slots(line) + [e.slot]
  {
    hide FromPairs, ByIdentity, BySequence, ByDue, Slots, Queued;
    AddedQueued(line, counter, e);
    IndexesGrow(line, e);
    PairsAdd(ByIdentity(line), (e.slot.identity, e));
    PairsAdd(BySequence(line), (e.sequence, e.slot.identity));
    PairsAdd(ByDue(line), (Due(e), e.slot.identity));
  }

  lemma MovedQueued<B>(line: Entries<B>, counter: nat, k: nat, e: Entry<B>)
    requires Queued(line, counter) && k < |line|
    requires e.slot.identity == line[k].slot.identity && e.sequence == line[k].sequence
    ensures Queued(line[k := e], counter)
  {
  }

  /** Replacing a pair under its own key is updating the map. */
  lemma PairsRewrite<K, V>(s: seq<(K, V)>, k: nat, p: (K, V))
    requires DistinctKeys(s) && k < |s| && p.0 == s[k].0 && DistinctKeys(s[k := p])
    ensures FromPairs(s[k := p]) == FromPairs(s)[p.0 := p.1]
  {
    PairsReplace(s, k, p);
  }

  /** A new body and deadline for an entry that keeps its place and sequence number. */
  lemma MovedIndexed<B>(line: Entries<B>, counter: nat, k: nat, e: Entry<B>)
    requires Queued(line, counter) && k < |line|
    requires e.slot.identity == line[k].slot.identity && e.sequence == line[k].sequence
    ensures Queued(line[k := e], counter)
    ensures FromPairs(ByIdentity(line[k := e])) == FromPairs(ByIdentity(line))[e.slot.identity := e]
    ensures BySequence(line[k := e]) == BySequence(line)
    ensures FromPairs(ByDue(line[k := e])) == (FromPairs(ByDue(line)) - {Due(line[k])})[Due(e) := e.slot.identity]
    ensures Slots(line[k := e]) == Slots(line)[k := e.slot]
  {
    hide FromPairs, DistinctKeys, Queued;
    MovedQueued(line, counter, k, e);
    QueuedKeys(line, counter);
    QueuedKeys(line[k := e], counter);
    ProjectedUpdate(line, k, e);
    PairsRewrite(ByIdentity(line), k, (e.slot.identity, e));
    PairsReplace(ByDue(line), k, (Due(e), e.slot.identity));
  }

  lemma ProjectedUpdate<B>(line: Entries<B>, k: nat, e: Entry<B>)
    requires k < |line|
    ensures ByIdentity(line[k := e]) == ByIdentity(line)[k := (e.slot.identity, e)]
    ensures BySequence(line[k := e]) == BySequence(line)[k := (e.sequence, e.slot.identity)]
    ensures ByDue(line[k := e]) == ByDue(line)[k := (Due(e), e.slot.identity)]
    ensures Slots(line[k := e]) == Slots(line)[k := e.slot]
  {
  }

  /** The least sequence number belongs to the oldest answer. */
  lemma OldestIsFirst<B>(line: Entries<B>, counter: nat)
    requires Queued(line, counter) && line != []
    ensures
      var order := FromPairs(BySequence(line));
      && line[0].sequence in order && order[line[0].sequence] == line[0].slot.identity
      && forall q :: q in order ==> line[0].sequence <= q
  {
    QueuedKeys(line, counter);
    PairsHave(BySequence(line), 0);
    forall q | q in FromPairs(BySequence(line)) ensures line[0].sequence <= q {
      var i := PairsOnly(BySequence(line), q);
    }
  }

  /** The least expiry key belongs to the answer the line would expire first. */
  lemma EarliestIsDue<B>(line: Entries<B>, counter: nat)
    requires Queued(line, counter) && line != []
    ensures
      var expiry, k := FromPairs(ByDue(line)), Earliest(Slots(line));
      && Due(line[k]) in expiry && expiry[Due(line[k])] == line[k].slot.identity
      && forall d :: d in expiry ==> DueBefore(Due(line[k]), d)
  {
    QueuedKeys(line, counter);
    var k := Earliest(Slots(line));
    PairsHave(ByDue(line), k);
    forall d | d in FromPairs(ByDue(line)) ensures DueBefore(Due(line[k]), d) {
      var i := PairsOnly(ByDue(line), d);
      assert Slots(line)[k].expiresAt <= Slots(line)[i].expiresAt;
    }
  }

  // ---- the same facts, stated on the stored maps -------------------------

  lemma IndexedEmpty<B>()
    ensures Indexed<B>([], map[], map[], map[], 0) && Slots<B>([]) == []
  {
  }

  lemma IndexedProbe<B>(line: Entries<B>, table: map<RouteIdentity, Entry<B>>, order: map<nat, RouteIdentity>,
                        expiry: map<(nat, nat), RouteIdentity>, counter: nat, id: RouteIdentity)
    requires Indexed(line, table, order, expiry, counter)
    ensures Find(Slots(line), id) == if id in table then Some(table[id].slot) else None
    ensures id !in table ==> Without(Slots(line), id) == Slots(line)
    ensures |table| == |line|
  {
    Probe(line, counter, id);
    QueuedKeys(line, counter);
    var k := WithoutCases(Slots(line), id);
  }

  lemma IndexedRemove<B>(line: Entries<B>, table: map<RouteIdentity, Entry<B>>, order: map<nat, RouteIdentity>,
                         expiry: map<(nat, nat), RouteIdentity>, counter: nat, id: RouteIdentity) returns (k: nat)
    requires Indexed(line, table, order, expiry, counter) && id in table
    ensures k < |line| && table[id] == line[k] && line[k].slot.identity == id
    ensures Indexed(RemoveAt(line, k), table - {id}, order - {table[id].sequence}, expiry - {Due(table[id])}, counter)
    ensures Slots(RemoveAt(line, k)) == Without(Slots(line), id) == RemoveAt(Slots(line), k)
  {
    k := Place(line, counter, id);
    RemovedIndexed(line, counter, k);
    RemovedSlots(line, counter, k);
  }

  lemma IndexedAdd<B>(line: Entries<B>, table: map<RouteIdentity, Entry<B>>, order: map<nat, RouteIdentity>,
                      expiry: map<(nat, nat), RouteIdentity>, counter: nat, e: Entry<B>)
    requires Indexed(line, table, order, expiry, counter)
    requires Find(Slots(line), e.slot.identity) == None && e.sequence > counter
    ensures Indexed(line + [e], table[e.slot.identity := e], order[e.sequence := e.slot.identity],
                    expiry[Due(e) := e.slot.identity], e.sequence)
    ensures Slots(line + [e]) == Slots(line) + [e.slot]
  {
    Probe(line, counter, e.slot.identity);
    AddedIndexed(line, counter, e);
  }

  lemma IndexedMove<B>(line: Entries<B>, table: map<RouteIdentity, Entry<B>>, order: map<nat, RouteIdentity>,
                       expiry: map<(nat, nat), RouteIdentity>, counter: nat, e: Entry<B>) returns (k: nat)
    requires Indexed(line, table, order, expiry, counter)
    requires e.slot.identity in table && e.sequence == table[e.slot.identity].sequence
    ensures k < |line| && line[k] == table[e.slot.identity] && line[k].slot.identity == e.slot.identity
    ensures Indexed(line[k := e], table[e.slot.identity := e], order,
                    (expiry - {Due(table[e.slot.identity])})[Due(e) := e.slot.identity], counter)
    ensures Slots(line[k := e]) == Slots(line)[k := e.slot]
  {
    k := Place(line, counter, e.slot.identity);
    MovedIndexed(line, counter, k, e);
  }

  /** A later counter indexes the same line. */
  lemma IndexedLater<B>(line: Entries<B>, table: map<RouteIdentity, Entry<B>>, order: map<nat, RouteIdentity>,
                        expiry: map<(nat, nat), RouteIdentity>, counter: nat, later: nat)
    requires Indexed(line, table, order, expiry, counter) && counter <= later
    ensures Indexed(line, table, order, expiry, later)
  {
  }

  /** Take the first key of the FIFO order: it names the oldest answer. */
  lemma IndexedOldest<B>(line: Entries<B>, table: map<RouteIdentity, Entry<B>>, order: map<nat, RouteIdentity>,
                         expiry: map<(nat, nat), RouteIdentity>, counter: nat)
    requires Indexed(line, table, order, expiry, counter) && line != []
    ensures exists q :: q in order && forall p :: p in order ==> q <= p
    ensures forall q :: q in order && (forall p :: p in order ==> q <= p) ==> order[q] == Slots(line)[0].identity
  {
    OldestIsFirst(line, counter);
  }

  /** Take the first key of the expiry order: it names the answer that is due first. */
  lemma IndexedDue<B>(line: Entries<B>, table: map<RouteIdentity, Entry<B>>, order: map<nat, RouteIdentity>,
                      expiry: map<(nat, nat), RouteIdentity>, counter: nat)
    requires Indexed(line, table, order, expiry, counter)
    ensures expiry == map[] <==> line == []
    ensures line != [] ==> exists d :: d in expiry && forall c :: c in expiry ==> DueBefore(d, c)
    ensures forall d :: d in expiry && (forall c :: c in expiry ==> DueBefore(d, c)) ==>
      && line != []
      && d.0 == Slots(line)[Earliest(Slots(line))].expiresAt
      && expiry[d] == Slots(line)[Earliest(Slots(line))].identity
  {
    if line != [] {
      EarliestIsDue(line, counter);
    }
  }

  /** Read pointwise: each answer has one order key and one expiry key, and each key names its answer. */
  ghost predicate KeysAgree<B>(table: map<RouteIdentity, Entry<B>>, order: map<nat, RouteIdentity>,
                               expiry: map<(nat, nat), RouteIdentity>, counter: nat)
  {
    && |table| == |order| == |expiry|
    && (forall id :: id in table ==>
          && table[id].slot.identity == id
          && table[id].sequence <= counter
          && table[id].sequence in order && order[table[id].sequence] == id
          && Due(table[id]) in expiry && expiry[Due(table[id])] == id)
    && (forall q :: q in order ==> order[q] in table && table[order[q]].sequence == q)
    && (forall d :: d in expiry ==> expiry[d] in table && Due(table[expiry[d]]) == d)
  }

  lemma IndexedAgrees<B>(line: Entries<B>, table: map<RouteIdentity, Entry<B>>, order: map<nat, RouteIdentity>,
                         expiry: map<(nat, nat), RouteIdentity>, counter: nat)
    requires Indexed(line, table, order, expiry, counter)
    ensures KeysAgree(table, order, expiry, counter)
  {
    hide DistinctKeys, FromPairs;
    QueuedKeys(line, counter);
    PairsCount(BySequence(line));
    PairsCount(ByDue(line));
    forall id | id in table
      ensures && table[id].slot.identity == id && table[id].sequence <= counter
              && table[id].sequence in order && order[table[id].sequence] == id
              && Due(table[id]) in expiry && expiry[Due(table[id])] == id
    {
      var k := Place(line, counter, id);
      PairsHave(BySequence(line), k);
      PairsHave(ByDue(line), k);
    }
    forall q | q in order ensures order[q] in table && table[order[q]].sequence == q {
      var k := PairsOnly(BySequence(line), q);
      Tabled(line, counter, k);
    }
    forall d | d in expiry ensures expiry[d] in table && Due(table[expiry[d]]) == d {
      var k := PairsOnly(ByDue(line), d);
      Tabled(line, counter, k);
    }
  }

  function UnregisteredEntry(e: Entry<Route>): Entry<Route> {
    e.(slot := e.slot.(body := e.slot.body.(subscription := None)))
  }

  function UnregisteredEntries(line: Entries<Route>): (r: Entries<Route>)
    ensures |r| == |line|
    ensures forall i :: 0 <= i < |line| ==> r[i] == UnregisteredEntry(line[i])
  {
    seq(|line|, i requires 0 <= i < |line| => UnregisteredEntry(line[i]))
  }

  /** Rewriting every table entry in place rewrites the line. */
  lemma IndexedUnregister(line: Entries<Route>, table: map<RouteIdentity, Entry<Route>>, order: map<nat, RouteIdentity>,
                          expiry: map<(nat, nat), RouteIdentity>, counter: nat, after: map<RouteIdentity, Entry<Route>>)
    requires Indexed(line, table, order, expiry, counter)
    requires after.Keys == table.Keys && forall k :: k in table ==> after[k] == UnregisteredEntry(table[k])
    ensures Indexed(UnregisteredEntries(line), after, order, expiry, counter)
    ensures Slots(UnregisteredEntries(line)) == Unregistered(Slots(line))
    ensures forall k :: k in table <==> Find(Slots(line), k).Some?
  {
    var bare := UnregisteredEntries(line);
    assert BySequence(bare) == BySequence(line);
    assert ByDue(bare) == ByDue(line);
    assert Slots(bare) == Unregistered(Slots(line));
    QueuedKeys(line, counter);
    UnregisteredTable(line, counter, after);
    forall k ensures k in table <==> Find(Slots(line), k).Some? {
      Probe(line, counter, k);
    }
  }

  lemma UnregisteredTable(line: Entries<Route>, counter: nat, after: map<RouteIdentity, Entry<Route>>)
    requires Queued(line, counter)
    requires after.Keys == FromPairs(ByIdentity(line)).Keys
    requires forall k :: k in after ==> after[k] == UnregisteredEntry(FromPairs(ByIdentity(line))[k])
    ensures FromPairs(ByIdentity(UnregisteredEntries(line))) == after
    ensures Queued(UnregisteredEntries(line), counter)
  {
    var bare := UnregisteredEntries(line);
    var table := FromPairs(ByIdentity(bare));
    forall k | k in table ensures k in after && after[k] == table[k] {
      var i := Place(bare, counter, k);
      Tabled(line, counter, i);
    }
    forall k | k in after ensures k in table {
      var i := Place(line, counter, k);
      Tabled(bare, counter, i);
    }
  }

  // ---- subscriptions -----------------------------------------------------

  /** Which identity each live ID backs. */
  function BySubscription(line: Line<Route>): map<SubscriptionId, RouteIdentity> {
    FromPairs(Backing(line))
  }

  function Backing(line: Line<Route>): seq<(SubscriptionId, RouteIdentity)> {
    if line == [] then []
    else Backing(line[..|line| - 1]) + Claim(line[|line| - 1])
  }

  function Claim(s: Slot<Route>): seq<(SubscriptionId, RouteIdentity)> {
    if s.body.subscription.Some? then [(s.body.subscription.value, s.identity)] else []
  }

  lemma {:induction false} BackingAppend(a: Line<Route>, b: Line<Route>)
    ensures Backing(a + b) == Backing(a) + Backing(b)
  {
    if b == [] {
      assert a + b == a;
    } else {
      assert (a + b)[..|a + b| - 1] == a + b[..|b| - 1];
      BackingAppend(a, b[..|b| - 1]);
    }
  }

  /** Position of the `k`-th answer's claim. */
  lemma BackingSplit(line: Line<Route>, k: nat)
    requires k < |line|
    ensures Backing(line) == Backing(line[..k]) + Claim(line[k]) + Backing(line[k + 1..])
  {
    hide Backing, Claim;
    var a, b := line[..k], line[k + 1..];
    SplitAt(line, k);
    BackingAppend(a, [line[k]] + b);
    BackingAppend([line[k]], b);
    BackingOne(line[k]);
    assert Backing(a) + (Claim(line[k]) + Backing(b)) == Backing(a) + Claim(line[k]) + Backing(b);
  }

  lemma BackingOne(s: Slot<Route>)
    ensures Backing([s]) == Claim(s)
  {
  }

  lemma {:induction false} BackingFrom(line: Line<Route>, j: nat) returns (k: nat)
    requires j < |Backing(line)|
    ensures k < |line| && Claim(line[k]) == [Backing(line)[j]] && j == |Backing(line[..k])|
  {
    var n := |line| - 1;
    if j < |Backing(line[..n])| {
      k := BackingFrom(line[..n], j);
      assert line[..n][..k] == line[..k];
    } else {
      k := n;
    }
  }

  lemma {:induction false} BackingKeys(line: Line<Route>)
    requires DistinctSubscriptions(line)
    ensures DistinctKeys(Backing(line))
  {
    if line != [] {
      var n := |line| - 1;
      BackingKeys(line[..n]);
      forall j | 0 <= j < |Backing(line[..n])|
        ensures line[n].body.subscription.Some? ==> Backing(line[..n])[j].0 != line[n].body.subscription.value
      {
        var k := BackingFrom(line[..n], j);
      }
    }
  }

  /** A probe by ID reaches the identity a scan of the line would. */
  lemma ProbeSubscription(line: Line<Route>, id: SubscriptionId)
    requires DistinctSubscriptions(line)
    ensures Holder(line, id) == if id in BySubscription(line) then Some(BySubscription(line)[id]) else None
  {
    BackingKeys(line);
    if id in BySubscription(line) {
      var j := PairsOnly(Backing(line), id);
      var k := BackingFrom(line, j);
      var s :| s in line && s.body.subscription == Some(id) && s.identity == Holder(line, id).value;
      var i :| 0 <= i < |line| && line[i] == s;
    } else if Holder(line, id).Some? {
      var s :| s in line && s.body.subscription == Some(id);
      var k :| 0 <= k < |line| && line[k] == s;
      BackingSplit(line, k);
      PairsHave(Backing(line), |Backing(line[..k])|);
    }
  }

  /** IDs and the answers that hold one are in bijection. */
  lemma SubscriptionsAgree(line: Entries<Route>, counter: nat, id: SubscriptionId, identity: RouteIdentity)
    requires Queued(line, counter) && DistinctSubscriptions(Slots(line))
    ensures
      var table, index := FromPairs(ByIdentity(line)), BySubscription(Slots(line));
      (id in index && index[id] == identity) <==>
      (identity in table && table[identity].slot.body.subscription == Some(id))
  {
    var slots := Slots(line);
    ProbeSubscription(slots, id);
    Probe(line, counter, identity);
    QueuedKeys(line, counter);
    var k := WithoutCases(slots, identity);
    if Holder(slots, id) == Some(identity) {
      var s :| s in slots && s.body.subscription == Some(id) && s.identity == identity;
    }
  }

  lemma RemovedSubscription(line: Line<Route>, k: nat)
    requires DistinctSubscriptions(line) && k < |line|
    ensures BySubscription(RemoveAt(line, k)) ==
      if line[k].body.subscription.Some? then BySubscription(line) - {line[k].body.subscription.value}
      else BySubscription(line)
  {
    hide Backing, FromPairs, DistinctSubscriptions;
    BackingSplit(line, k);
    BackingAppend(line[..k], line[k + 1..]);
    var a, b := Backing(line[..k]), Backing(line[k + 1..]);
    if line[k].body.subscription.Some? {
      BackingKeys(line);
      CutOut(a, (line[k].body.subscription.value, line[k].identity), b);
      PairsRemove(Backing(line), |a|);
    } else {
      assert a + [] == a;
    }
  }

  lemma CutOut<T>(a: seq<T>, x: T, b: seq<T>)
    ensures RemoveAt(a + [x] + b, |a|) == a + b && (a + [x] + b)[|a|] == x
  {
  }

  lemma AddedSubscription(line: Line<Route>, s: Slot<Route>)
    requires DistinctSubscriptions(line)
    ensures BySubscription(line + [s]) ==
      if s.body.subscription.Some? then BySubscription(line)[s.body.subscription.value := s.identity]
      else BySubscription(line)
  {
    assert (line + [s])[..|line|] == line;
    if s.body.subscription.Some? {
      assert Claim(s) == [(s.body.subscription.value, s.identity)];
      PairsAdd(Backing(line), (s.body.subscription.value, s.identity));
    } else {
      assert Backing(line + [s]) == Backing(line);
    }
  }

  lemma {:induction false} SameSubscriptions(a: Line<Route>, b: Line<Route>)
    requires |a| == |b|
    requires forall i :: 0 <= i < |a| ==>
      a[i].identity == b[i].identity && a[i].body.subscription == b[i].body.subscription
    ensures Backing(a) == Backing(b)
  {
    if a != [] {
      SameSubscriptions(a[..|a| - 1], b[..|b| - 1]);
    }
  }

  lemma {:induction false} NoSubscriptions(line: Line<Route>)
    requires forall i :: 0 <= i < |line| ==> line[i].body.subscription.None?
    ensures Backing(line) == []
  {
    if line != [] {
      NoSubscriptions(line[..|line| - 1]);
    }
  }
}
