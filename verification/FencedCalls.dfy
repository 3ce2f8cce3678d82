/** The fence around one mutation of a driver: its mark in the store, the dispatch, and the acknowledgement. */
module FencedCalls {
  import opened Prelude
  import E = ClientErrors
  import C = Cluster
  import opened Lifecycle
  import opened LifecycleLaws
  import opened LifecycleFence
  import opened LifecycleRuns
  import opened LifecycleActors
  import F = FencedRuns

  /** What else can go wrong around a fenced mutation: lost replies of the store, and cancellation or a timeout. */
  datatype Mishaps = Mishaps(cancelledFirst: bool, begin: Reply, cancelledBegun: bool, cut: bool, ack: Reply)

  /** A reply of the store may get lost, whether or not the transaction was committed. */
  datatype Reply = Received | Lost(committed: bool)

  /** Nothing went wrong. */
  function Smooth(): Mishaps { Mishaps(false, Received, false, false, Received) }

  function KeyOf(target: string, row: Row, id: nat): F.Key
    requires row.lease.Some?
  {
    F.Key(target, EffectMark(ClaimOf(row), id))
  }

  /** The mark of the mutation is on its row. */
  ghost predicate Bears(s: Store, key: F.Key) {
    key.target in s.rows && s.rows[key.target].effect == Some(key.mark)
  }

  /** The answer is a certain error, although the mutation came about. */
  ghost predicate Denied(r: Result<(), E.ClientError>, came: bool) { r.Err? && !r.error.outcomeUncertain && came }

  /** Somebody else resolved the effect. */
  ghost predicate Meddled(moves: seq<F.Move>, key: F.Key) {
    exists i :: 0 <= i < |moves| && moves[i].Other? && Resolves(moves[i].op, key.target, key.mark)
  }

  lemma MeddledWithin(before: seq<F.Move>, moves: seq<F.Move>, after: seq<F.Move>, key: F.Key)
    requires Meddled(moves, key)
    ensures Meddled(before + moves + after, key)
  {
    hide Resolves;
    var i :| 0 <= i < |moves| && moves[i].Other? && Resolves(moves[i].op, key.target, key.mark);
    assert (before + moves + after)[|before| + i] == moves[i];
  }

  lemma OthersMeddle(ops: seq<Op>, key: F.Key)
    requires exists i :: 0 <= i < |ops| && Resolves(ops[i], key.target, key.mark)
    ensures Meddled(F.Others(ops), key)
  {
    hide Resolves;
    var i :| 0 <= i < |ops| && Resolves(ops[i], key.target, key.mark);
    assert F.Others(ops)[i] == F.Other(ops[i]);
  }

  /** An acknowledgement is refused only if somebody else resolved the effect first. */
  lemma AckRefused(s: Store, ran: seq<Op>, key: F.Key, own: seq<F.Move>)
    requires Inv(s) && Fenced(s) && Bears(s, key)
    requires Perform(Run(s, ran), F.AckOp(key)).Err?
    ensures Meddled(F.Others(ran) + own, key)
  {
    hide Inv, Fenced, Run, Resolves;
    MarkStays(s, ran, key.target, key.mark);
    OthersMeddle(ran, key);
    MeddledWithin([], F.Others(ran), own, key);
    assert [] + F.Others(ran) + own == F.Others(ran) + own;
  }

  /** The effect of the row is resolved. */
  ghost function Resolved(s: Store, target: string): Store
    requires target in s.rows
  {
    SetRow(s, target, s.rows[target].(effect := None))
  }

  /** The effect is resolved exactly if it is the row's. */
  lemma AckAnswer(s: Store, key: F.Key)
    ensures Perform(s, F.AckOp(key)) == if Bears(s, key) then Ok(Resolved(s, key.target)) else Err(NotFound)
  {
  }

  /** Resolve the effect; a lost reply leaves open whether the mark is gone. */
  method Acknowledge(server: StoreServer, target: string, row: Row, id: nat, mishaps: Mishaps)
    returns (r: Result<bool, E.ClientError>, ghost moves: seq<F.Move>, ghost own: seq<F.Move>)
    requires server.Valid() && row.lease.Some?
    modifies server
    ensures server.Valid()
    ensures r.Err? ==> r.error.outcomeUncertain
    ensures r == Ok(true) ==> target in server.store.rows && server.store.rows[target].effect.None?
    ensures F.Made(old(server.store), server.store, moves, KeyOf(target, row, id), own)
    ensures own == [F.Acknowledge(KeyOf(target, row, id))] || (own == [] && r.Err?)
    ensures r == Ok(false) && Bears(old(server.store), KeyOf(target, row, id)) ==>
      Meddled(moves, KeyOf(target, row, id))
    ensures old(server.script) == [] ==> server.script == []
    ensures old(server.script) == [] && mishaps.ack == Received && Bears(old(server.store), KeyOf(target, row, id)) ==>
      r == Ok(true) && server.store == Resolved(old(server.store), target)
  {
    hide Inv, Fenced, Grows, Undisturbed, F.Made, Run, Perform, Meddled, F.Others;
    if mishaps.ack == Lost(false) {
      F.NothingMade(server.store, KeyOf(target, row, id));
      return Err(E.Uncertain("could not be acknowledged")), [], [];
    }
    var acknowledged, at := server.Call(OpAckEffect(target, ClaimOf(row), id));
    AckAnswer(at, KeyOf(target, row, id));
    ghost var ran :| at == Run(old(server.store), ran);
    own := [F.Acknowledge(KeyOf(target, row, id))];
    moves := F.Others(ran) + own;
    F.CallMade(old(server.store), ran, own[0]);
    if acknowledged.Err? && Bears(old(server.store), KeyOf(target, row, id)) {
      AckRefused(old(server.store), ran, KeyOf(target, row, id), own);
    }
    r := if mishaps.ack.Lost? then Err(E.Uncertain("could not be acknowledged")) else Ok(acknowledged.Ok?);
  }

  /** The row's driver holds its newest claim, and no other effect of the row is unresolved. */
  ghost predicate Entitled(s: Store, target: string, row: Row, id: nat)
    requires row.lease.Some?
  {
    && target in s.rows && s.rows[target].stamp == row.stamp && s.rows[target].state == row.state
    && s.rows[target].lease == Some(Lease(ClaimOf(row).owner, s.rows[target].attempts, true))
    && s.rows[target].effect in {None, Some(EffectMark(ClaimOf(row), id))}
  }

  /** Through `ops` the mark stayed on its row and nobody claimed the row, unless an operation resolved the effect. */
  ghost predicate KeptOff(s: Store, ops: seq<Op>, target: string, mark: EffectMark)
    requires target in s.rows
  {
    || (exists i :: 0 <= i < |ops| && Resolves(ops[i], target, mark))
    || (&& target in Run(s, ops).rows && Run(s, ops).rows[target].effect == Some(mark)
        && Run(s, ops).rows[target].attempts == s.rows[target].attempts)
  }

  lemma MarkStays(s: Store, ops: seq<Op>, target: string, mark: EffectMark)
    requires Inv(s) && Fenced(s) && target in s.rows && s.rows[target].effect == Some(mark)
    ensures KeptOff(s, ops, target, mark)
  {
    hide Inv, Fenced, Resolves, Run;
    if forall i :: 0 <= i < |ops| ==> !Resolves(ops[i], target, mark) {
      EffectBarsRun(s, ops, target, mark);
    }
  }

  /** The moves of a mutation from its dispatch on; `came` is whether it took effect. */
  ghost predicate Sailed(own: seq<F.Move>, key: F.Key, came: bool) {
    || own == Out(key, came)
    || own == Out(key, came) + [F.Answer(key)]
    || own == Out(key, came) + [F.Answer(key)] + [F.Acknowledge(key)]
  }

  function Out(key: F.Key, came: bool): seq<F.Move> {
    if came then [F.Dispatch(key), F.Arrive(key)] else [F.Dispatch(key)]
  }

  lemma OutSails(key: F.Key, came: bool)
    ensures Sailed(Out(key, came), key, came) && Sailed(Out(key, came) + [F.Answer(key)], key, came)
    ensures Sailed(Out(key, came) + [F.Answer(key)] + [F.Acknowledge(key)], key, came)
    ensures !came ==> Out(key, came) == [F.Dispatch(key)]
  {
  }

  /** The moves of a whole call; those of one that was never dispatched, if `sailed` is false. */
  ghost predicate Spelled(own: seq<F.Move>, key: F.Key, state: RowState, sailed: bool, came: bool) {
    if sailed then own != [] && own[0] == F.Begin(key, state) && Sailed(own[1..], key, came)
    else
      || own == [] || own == [F.Acknowledge(key)]
      || own == [F.Begin(key, state)] || own == [F.Begin(key, state), F.Acknowledge(key)]
  }

  /** Every call keeps to the protocol of the fence. */
  lemma CallIsLawful(own: seq<F.Move>, key: F.Key, state: RowState, sailed: bool, came: bool)
    requires Spelled(own, key, state, sailed, came)
    ensures F.Lawful(own)
  {
    hide F.Lawful;
    var begun := [F.Begin(key, state)];
    NothingIsLawful();
    F.LawfulSnoc([], F.Begin(key, state));
    F.LawfulSnoc([], F.Acknowledge(key));
    assert [] + begun == begun && [] + [F.Acknowledge(key)] == [F.Acknowledge(key)];
    F.LawfulSnoc(begun, F.Acknowledge(key));
    assert begun + [F.Acknowledge(key)] == [F.Begin(key, state), F.Acknowledge(key)];
    if sailed {
      assert own == begun + own[1..];
      SailedIsLawful(begun, own[1..], key, came);
    }
  }

  lemma NothingIsLawful()
    ensures F.Lawful([])
  {
  }

  lemma SailedIsLawful(begun: seq<F.Move>, own: seq<F.Move>, key: F.Key, came: bool)
    requires |begun| == 1 && begun[0].Begin? && F.Lawful(begun) && Sailed(own, key, came)
    ensures F.Lawful(begun + own)
  {
    hide F.Lawful;
    F.LawfulSnoc(begun, F.Dispatch(key));
    var out := begun + [F.Dispatch(key)];
    if came {
      F.LawfulSnoc(out, F.Arrive(key));
      out := out + [F.Arrive(key)];
    }
    F.LawfulSnoc(out, F.Answer(key));
    F.LawfulSnoc(out + [F.Answer(key)], F.Acknowledge(key));
    assert out == begun + Out(key, came);
    assert out + [F.Answer(key)] == begun + (Out(key, came) + [F.Answer(key)]);
    assert out + [F.Answer(key)] + [F.Acknowledge(key)] ==
      begun + (Out(key, came) + [F.Answer(key)] + [F.Acknowledge(key)]);
  }

  /** After the dispatch, and whatever others did since. */
  lemma DispatchMade(s: Store, ops: seq<Op>, key: F.Key, came: bool)
    ensures F.Made(s, Run(s, ops), Out(key, came) + F.Others(ops), key, Out(key, came))
  {
    hide Run, F.Made, F.Others;
    F.MoveMade(s, F.Dispatch(key));
    F.OthersMade(s, ops, key);
    if came {
      F.MoveMade(s, F.Arrive(key));
      F.MadeJoins(s, s, s, [F.Dispatch(key)], [F.Arrive(key)], key, [F.Dispatch(key)], [F.Arrive(key)]);
      assert [F.Dispatch(key)] + [F.Arrive(key)] == Out(key, came);
    }
    F.MadeJoins(s, s, Run(s, ops), Out(key, came), F.Others(ops), key, Out(key, came), []);
    assert Out(key, came) + [] == Out(key, came);
  }

  lemma StillMeddled(s: Store, ops: seq<Op>, key: F.Key, before: seq<F.Move>, between: seq<F.Move>, last: seq<F.Move>)
    requires key.target in s.rows && KeptOff(s, ops, key.target, key.mark)
    requires Bears(Run(s, ops), key) ==> Meddled(last, key)
    ensures Meddled(before + F.Others(ops) + between + last, key)
  {
    hide Resolves, Run, F.Others;
    if Meddled(last, key) {
      MeddledWithin(before + F.Others(ops) + between, last, [], key);
      assert before + F.Others(ops) + between + last + [] == before + F.Others(ops) + between + last;
    } else {
      OthersMeddle(ops, key);
      MeddledWithin(before, F.Others(ops), between + last, key);
      assert before + F.Others(ops) + between + last == before + F.Others(ops) + (between + last);
    }
  }

  /** Dispatch a mutation whose mark is on the row, and acknowledge it unless its outcome is uncertain. */
  method DispatchMarked(server: StoreServer, cluster: C.Cluster, target: string, row: Row, id: nat,
                        request: C.Request, mishaps: Mishaps)
    returns (r: Result<(), E.ClientError>, ghost meanwhile: seq<Op>, ghost moves: seq<F.Move>, ghost own: seq<F.Move>)
    requires server.Valid() && cluster.Valid() && row.lease.Some? && C.Licensed(request, cluster.log)
    requires target in server.store.rows && server.store.rows[target].effect == Some(EffectMark(ClaimOf(row), id))
    modifies server, cluster
    ensures server.Valid() && cluster.Valid() && cluster.log == old(cluster.log) + [C.Attempted(request)]
    ensures r.Ok? ==>
      && cluster.Delivered(C.Sent(|old(cluster.log)|, request))
      && target in server.store.rows && server.store.rows[target].effect.None?
    ensures C.Flying(|old(cluster.log)|, cluster.inFlight) ==>
      && r.Err? && r.error.outcomeUncertain && server.store == Run(old(server.store), meanwhile)
      && KeptOff(old(server.store), meanwhile, target, EffectMark(ClaimOf(row), id))
    ensures
      var key := KeyOf(target, row, id);
      && F.Made(old(server.store), server.store, moves, key, own)
      && Sailed(own, key, C.Happened(C.Sent(|old(cluster.log)|, request), cluster.chronicle))
      && (C.Flying(|old(cluster.log)|, cluster.inFlight) ==> own == [F.Dispatch(key)])
      && (r.Ok? ==> F.Acknowledge(key) in own)
      && (Denied(r, C.Happened(C.Sent(|old(cluster.log)|, request), cluster.chronicle)) ==> Meddled(moves, key))
    ensures old(server.script == [] && cluster.script == []) && mishaps == Smooth() ==>
      C.Lands(old(cluster.world), request.effect) ==>
      && r.Ok? && cluster.world == C.After(old(cluster.world), request.effect)
      && server.store == Resolved(old(server.store), target)
  {
    hide Inv, Fenced, Grows, Undisturbed, C.Cluster.Valid, C.Onward, C.LicensedBy, C.Keeps, KeptOff, Run;
    hide F.Made, F.Others, C.Happened, Sailed, C.Cluster.Delivered, Out, Meddled, Resolved, C.Lands, C.After;
    ghost var key, start := KeyOf(target, row, id), server.store;
    var result, _, _ := cluster.Mutate(request);
    ghost var came := C.Happened(C.Sent(|old(cluster.log)|, request), cluster.chronicle);
    meanwhile := server.Yield();
    MarkStays(start, meanwhile, target, EffectMark(ClaimOf(row), id));
    DispatchMade(start, meanwhile, key, came);
    OutSails(key, came);
    own := Out(key, came);
    moves := own + F.Others(meanwhile);
    if mishaps.cut {
      return Err(E.Uncertain("dispatched effect cancelled or timed out")), meanwhile, moves, own;
    }
    if result.Err? && result.error.outcomeUncertain {
      return result, meanwhile, moves, own;
    }
    assert !C.Flying(|old(cluster.log)|, cluster.inFlight);
    r, moves, own := Conclude(server, target, row, id, result, mishaps, start, meanwhile, own);
  }

  /** Acknowledge a mutation whose outcome is certain; `own` are its moves so far, and others did `meanwhile`. */
  method Conclude(server: StoreServer, target: string, row: Row, id: nat, result: Result<(), E.ClientError>,
                  mishaps: Mishaps, ghost start: Store, ghost meanwhile: seq<Op>, ghost sent: seq<F.Move>)
    returns (r: Result<(), E.ClientError>, ghost moves: seq<F.Move>, ghost own: seq<F.Move>)
    requires server.Valid() && row.lease.Some? && server.store == Run(start, meanwhile)
    requires F.Made(start, server.store, sent + F.Others(meanwhile), KeyOf(target, row, id), sent)
    requires target in start.rows && KeptOff(start, meanwhile, target, EffectMark(ClaimOf(row), id))
    modifies server
    ensures server.Valid()
    ensures r.Ok? ==> result.Ok? && target in server.store.rows && server.store.rows[target].effect.None?
    ensures
      var key := KeyOf(target, row, id);
      && F.Made(start, server.store, moves, key, own)
      && (own == sent + [F.Answer(key)] || own == sent + [F.Answer(key)] + [F.Acknowledge(key)])
      && (r.Ok? ==> own == sent + [F.Answer(key)] + [F.Acknowledge(key)])
      && (r.Err? && !r.error.outcomeUncertain ==> r == result || Meddled(moves, key))
    ensures old(server.script) == [] && mishaps == Smooth() && Bears(old(server.store), KeyOf(target, row, id)) ==>
      r == result && server.store == Resolved(old(server.store), target)
  {
    hide Inv, Fenced, Grows, Undisturbed, KeptOff, Run, F.Made, F.Others, Meddled, Resolved;
    ghost var key, middle := KeyOf(target, row, id), server.store;
    F.MoveMade(middle, F.Answer(key));
    moves := sent + F.Others(meanwhile);
    F.MadeJoins(start, middle, middle, moves, [F.Answer(key)], key, sent, [F.Answer(key)]);
    ghost var last, tail;
    var acknowledged;
    acknowledged, last, tail := Acknowledge(server, target, row, id, mishaps);
    F.MadeJoins(start, middle, server.store, moves + [F.Answer(key)], last, key, sent + [F.Answer(key)], tail);
    assert tail == [] ==> sent + [F.Answer(key)] + tail == sent + [F.Answer(key)];
    if acknowledged == Ok(false) {
      StillMeddled(start, meanwhile, key, sent, [F.Answer(key)], last);
    }
    moves, own := moves + [F.Answer(key)] + last, sent + [F.Answer(key)] + tail;
    match acknowledged
    case Err(error) => r := Err(error);
    case Ok(current) => r := if current then result else Err(E.Transient("acknowledgement is no longer current"));
  }

  /** An effect begins under the newest claim only, for whoever holds the row, and resolving it undoes that. */
  lemma BeginsMine(s: Store, target: string, row: Row, id: nat)
    requires Inv(s) && row.lease.Some?
    ensures
      var begin := OpBeginEffect(target, ClaimOf(row), row.state, id);
      && (Perform(s, begin).Ok? ==> Entitled(s, target, row, id) && Bears(Step(s, begin), KeyOf(target, row, id)))
      && (Mine(s, target, row) ==> Perform(s, begin).Ok? && Resolved(Step(s, begin), target) == s)
  {
    if Perform(s, OpBeginEffect(target, ClaimOf(row), row.state, id)).Ok? {
      ClaimIsNewest(s, target);
    }
    if Mine(s, target, row) {
      var marked := Step(s, OpBeginEffect(target, ClaimOf(row), row.state, id));
      assert Resolved(marked, target).rows == s.rows;
    }
  }

  /** Begin the effect. Unless something came in between, its mark is then on the row. */
  method Prepare(server: StoreServer, target: string, row: Row, id: nat, mishaps: Mishaps)
    returns (stopped: Option<E.ClientError>, ghost at: Store, ghost moves: seq<F.Move>, ghost own: seq<F.Move>)
    requires server.Valid() && row.lease.Some?
    modifies server
    ensures server.Valid() && F.Made(old(server.store), server.store, moves, KeyOf(target, row, id), own)
    ensures stopped.Some? ==> Spelled(own, KeyOf(target, row, id), row.state, false, false) && F.Lawful(own)
    ensures stopped.None? ==>
      && own == [F.Begin(KeyOf(target, row, id), row.state)]
      && Inv(at) && Leads(old(server.store), at) && Entitled(at, target, row, id)
      && server.store == Step(at, OpBeginEffect(target, ClaimOf(row), row.state, id))
      && target in server.store.rows && server.store.rows[target].effect == Some(EffectMark(ClaimOf(row), id))
    ensures old(server.script) == [] ==> server.script == []
    ensures old(server.script == [] && Mine(server.store, target, row)) && mishaps == Smooth() ==>
      stopped.None? && Resolved(server.store, target) == old(server.store)
  {
    hide Inv, Fenced, Grows, Undisturbed, Run, F.Made, F.Others, F.Lawful, Mine, Resolved, Perform;
    ghost var key, start := KeyOf(target, row, id), server.store;
    at, moves, own := start, [], [];
    F.NothingMade(start, key);
    CallIsLawful(own, key, row.state, false, false);
    if mishaps.cancelledFirst {
      return Some(E.Transient("cancelled before dispatch")), at, moves, own;
    }
    if mishaps.begin == Lost(false) {
      var _, made, spelled := Unsent(server, target, row, id, mishaps, start, moves, own);
      return Some(E.Transient("mutation was not dispatched")), at, made, spelled;
    }
    var begun;
    begun, at := server.Call(OpBeginEffect(target, ClaimOf(row), row.state, id));
    BeginsMine(at, target, row, id);
    ghost var ran :| at == Run(start, ran);
    own := [F.Begin(key, row.state)];
    moves := F.Others(ran) + own;
    F.CallMade(start, ran, own[0]);
    CallIsLawful(own, key, row.state, false, false);
    if mishaps.begin.Lost? {
      var _, made, spelled := Unsent(server, target, row, id, mishaps, start, moves, own);
      return Some(E.Transient("mutation was not dispatched")), at, made, spelled;
    }
    if begun.Err? {
      return Some(E.Transient("lease lost or another effect is unresolved")), at, moves, own;
    }
    if mishaps.cancelledBegun {
      var resolved, made, spelled := Unsent(server, target, row, id, mishaps, start, moves, own);
      var error := if resolved.Err? then resolved.error else E.Transient("cancelled before dispatch");
      return Some(error), at, made, spelled;
    }
    stopped := None;
  }

  /**
   One mutation of a driver: begin the effect in the store, dispatch under the
   retry loop, and acknowledge it unless its outcome is uncertain. The cluster
   is asked only under the newest claim of the row (`at` is the store when the
   effect began) with no other effect unresolved. Success means it landed and
   was acknowledged; an error that is not uncertain, that it never takes effect,
   unless somebody else resolved it in the meantime. Whenever it may still be on its way the answer is
   uncertain, and the mark keeps everybody else off the row through whatever
   they did since the effect began (`meanwhile`), unless that resolved it. All
   this is a sequence of the fence's moves, its own as the protocol has them.
   Without others and without mishaps the mutation of a driver that holds the
   row goes through if it finds what it expects, and leaves no mark.
   */
  method FencedMutate(server: StoreServer, cluster: C.Cluster, target: string, row: Row, id: nat, request: C.Request,
                      mishaps: Mishaps)
    returns (r: Result<(), E.ClientError>, ghost at: Store, ghost meanwhile: seq<Op>, ghost moves: seq<F.Move>,
             ghost own: seq<F.Move>)
    requires server.Valid() && cluster.Valid() && row.lease.Some? && C.Licensed(request, cluster.log)
    modifies server, cluster
    ensures server.Valid() && cluster.Valid()
    ensures cluster.log == old(cluster.log) || cluster.log == old(cluster.log) + [C.Attempted(request)]
    ensures cluster.log == old(cluster.log) ==> r.Err? && cluster.Now() == old(cluster.Now())
    ensures cluster.log != old(cluster.log) ==>
      Inv(at) && Leads(old(server.store), at) && Entitled(at, target, row, id)
    ensures r.Ok? ==>
      && cluster.Delivered(C.Sent(|old(cluster.log)|, request))
      && target in server.store.rows && server.store.rows[target].effect.None?
    ensures cluster.log != old(cluster.log) && C.Flying(|old(cluster.log)|, cluster.inFlight) ==>
      var marked := Step(at, OpBeginEffect(target, ClaimOf(row), row.state, id));
      && r.Err? && r.error.outcomeUncertain
      && target in marked.rows && server.store == Run(marked, meanwhile)
      && KeptOff(marked, meanwhile, target, EffectMark(ClaimOf(row), id))
    ensures F.Made(old(server.store), server.store, moves, KeyOf(target, row, id), own) && F.Lawful(own)
    ensures Spelled(own, KeyOf(target, row, id), row.state, cluster.log != old(cluster.log),
      C.Happened(C.Sent(|old(cluster.log)|, request), cluster.chronicle))
    ensures cluster.log != old(cluster.log) && C.Flying(|old(cluster.log)|, cluster.inFlight) ==>
      own == [F.Begin(KeyOf(target, row, id), row.state), F.Dispatch(KeyOf(target, row, id))]
    ensures cluster.log != old(cluster.log) ==>
      Denied(r, C.Happened(C.Sent(|old(cluster.log)|, request), cluster.chronicle)) ==>
        Meddled(moves, KeyOf(target, row, id))
    ensures old(server.script == [] && cluster.script == [] && Mine(server.store, target, row)) ==>
      mishaps == Smooth() && C.Lands(old(cluster.world), request.effect) ==>
        && r.Ok? && cluster.world == C.After(old(cluster.world), request.effect)
        && server.store == old(server.store)
  {
    hide Inv, Fenced, Grows, Undisturbed, C.Cluster.Valid, C.Onward, C.LicensedBy, Leads, KeptOff, Run, Entitled;
    hide F.Made, F.Lawful, C.Happened, Sailed, Step, Meddled, Mine, Resolved;
    meanwhile := [];
    var stopped;
    stopped, at, moves, own := Prepare(server, target, row, id, mishaps);
    if stopped.Some? {
      r := Err(stopped.value);
      return;
    }
    ghost var key, middle := KeyOf(target, row, id), server.store;
    ghost var sailed, rest;
    r, meanwhile, sailed, rest := DispatchMarked(server, cluster, target, row, id, request, mishaps);
    F.MadeJoins(old(server.store), middle, server.store, moves, sailed, key, own, rest);
    if Meddled(sailed, key) {
      MeddledWithin(moves, sailed, [], key);
      assert moves + sailed + [] == moves + sailed;
    }
    moves, own := moves + sailed, own + rest;
    assert own[1..] == rest;
    CallIsLawful(own, key, row.state, true, C.Happened(C.Sent(|old(cluster.log)|, request), cluster.chronicle));
  }

  /** Resolve the effect of a mutation that was never dispatched. */
  method Unsent(server: StoreServer, target: string, row: Row, id: nat, mishaps: Mishaps, ghost start: Store,
                ghost before: seq<F.Move>, ghost begun: seq<F.Move>)
    returns (r: Result<bool, E.ClientError>, ghost moves: seq<F.Move>, ghost own: seq<F.Move>)
    requires server.Valid() && row.lease.Some?
    requires F.Made(start, server.store, before, KeyOf(target, row, id), begun)
    requires begun == [] || begun == [F.Begin(KeyOf(target, row, id), row.state)]
    modifies server
    ensures server.Valid() && F.Made(start, server.store, moves, KeyOf(target, row, id), own) && F.Lawful(own)
    ensures Spelled(own, KeyOf(target, row, id), row.state, false, false)
    ensures r.Err? ==> r.error.outcomeUncertain
    ensures old(server.script) == [] ==> server.script == []
  {
    hide F.Made, F.Lawful;
    ghost var middle := server.store;
    ghost var last, tail;
    r, last, tail := Acknowledge(server, target, row, id, mishaps);
    F.MadeJoins(start, middle, server.store, before, last, KeyOf(target, row, id), begun, tail);
    moves, own := before + last, begun + tail;
    CallIsLawful(own, KeyOf(target, row, id), row.state, false, false);
  }

  /** A lease was granted by the latest claim. */
  lemma ClaimIsNewest(s: Store, target: string)
    requires Inv(s) && target in s.rows && s.rows[target].lease.Some?
    ensures s.rows[target].lease.value.attempt == s.rows[target].attempts
  {
  }
}
