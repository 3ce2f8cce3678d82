/** Any number of drivers at work on one instance, each mutating the cluster only inside the effect fence. */
module FencedRuns {
  import opened Prelude
  import opened Lifecycle
  import opened LifecycleLaws
  import opened LifecycleFence
  import opened LifecycleRuns

  /** A fenced mutation, by the row it is made for and the mark it leaves there; no two are the same. */
  datatype Key = Key(target: string, mark: EffectMark)

  /**
   How far it got: marked in the store, on its way, in effect though nobody
   was told, answered for certain, and acknowledged. One whose answer got lost
   stays on its way, or in effect, for good.
   */
  datatype Phase = Begun | Flying | Arrived | Answered | Closed

  datatype System = System(store: Store, work: map<Key, Phase>)

  datatype Move =
    | Other(op: Op)
    | Begin(key: Key, state: RowState)
    | Dispatch(key: Key)
    | Arrive(key: Key)
    | Answer(key: Key)
    | Acknowledge(key: Key)

  predicate At(y: System, key: Key, phases: set<Phase>) { key in y.work && y.work[key] in phases }

  function BeginOp(key: Key, state: RowState): Op { OpBeginEffect(key.target, key.mark.claim, state, key.mark.id) }

  function AckOp(key: Key): Op { OpAckEffect(key.target, key.mark.claim, key.mark.id) }

  /** A move that is not possible changes nothing. */
  function Next(y: System, move: Move): System {
    match move
    case Other(op) => if op.OpBeginEffect? || op.OpAckEffect? then y else y.(store := Step(y.store, op))
    case Begin(key, state) =>
      if key !in y.work && Perform(y.store, BeginOp(key, state)).Ok?
      then System(Step(y.store, BeginOp(key, state)), y.work[key := Begun]) else y
    case Dispatch(key) => if At(y, key, {Begun}) then y.(work := y.work[key := Flying]) else y
    case Arrive(key) => if At(y, key, {Flying}) then y.(work := y.work[key := Arrived]) else y
    case Answer(key) => if At(y, key, {Flying, Arrived}) then y.(work := y.work[key := Answered]) else y
    case Acknowledge(key) =>
      if At(y, key, {Begun, Answered}) then System(Step(y.store, AckOp(key)), y.work[key := Closed]) else y
  }

  function RunMoves(y: System, moves: seq<Move>): System
    decreases |moves|
  {
    if moves == [] then y else Next(RunMoves(y, moves[..|moves| - 1]), moves[|moves| - 1])
  }

  function NewSystem(): System { System(NewStore(), map[]) }

  predicate Unresolved(y: System, key: Key) { key in y.work && y.work[key] != Closed }

  /** The mark is on the row, and the claim it was made under is still the newest. */
  ghost predicate Marked(s: Store, key: Key) {
    && key.target in s.rows && s.rows[key.target].effect == Some(key.mark)
    && s.rows[key.target].attempts == key.mark.claim.attempt && s.rows[key.target].stamp == key.mark.claim.generation
  }

  ghost predicate AllMarked(y: System) { forall key :: Unresolved(y, key) ==> Marked(y.store, key) }

  ghost predicate Guarded(y: System) { Inv(y.store) && Fenced(y.store) && AllMarked(y) }

  /** An operator removes a row although a mutation made for it is unresolved. */
  ghost predicate Overrides(y: System, move: Move) {
    move.Other? && move.op.OpForceDelete? && exists key :: Unresolved(y, key) && key.target == move.op.target
  }

  /** Marked rows are active, and only one row is. */
  lemma OneUnresolved(y: System, key: Key, other: Key)
    requires Guarded(y) && Unresolved(y, key) && Unresolved(y, other)
    ensures key == other
  {
    hide Inv, Fenced;
    assert Marked(y.store, key) && Marked(y.store, other);
    NotFinished(y.store, key.target);
    NotFinished(y.store, other.target);
    OnlyActive(y.store, key.target);
  }

  lemma OtherMarked(y: System, op: Op, key: Key)
    requires Guarded(y) && Unresolved(y, key) && !Overrides(y, Other(op)) && !op.OpAckEffect?
    ensures Marked(Step(y.store, op), key)
  {
    hide Inv, Fenced, Step;
    assert Marked(y.store, key);
    EffectBars(y.store, op, key.target, key.mark);
  }

  lemma BeginMarks(s: Store, key: Key, state: RowState)
    requires Inv(s) && Perform(s, BeginOp(key, state)).Ok?
    ensures Marked(Step(s, BeginOp(key, state)), key)
  {
    hide Inv;
    RowHolds(s, key.target);
  }

  /** The row of an unresolved mutation accepts no other. */
  lemma BeginRefused(y: System, key: Key, state: RowState, other: Key)
    requires Guarded(y) && Unresolved(y, other) && key != other
    ensures Perform(y.store, BeginOp(key, state)).Err?
  {
    hide Inv, Fenced;
    assert Marked(y.store, other);
    NotFinished(y.store, other.target);
    OnlyActive(y.store, other.target);
    if key.target in y.store.rows && key.target != other.target {
      FinishedHoldsNothing(y.store, key.target);
    }
  }

  /** A move keeps every unresolved mutation marked exactly if it is no override. */
  lemma NextGuarded(y: System, move: Move)
    requires Guarded(y)
    ensures Guarded(Next(y, move)) <==> !Overrides(y, move)
  {
    hide Inv, Fenced, Step, Perform, Marked;
    var z := Next(y, move);
    if Overrides(y, move) {
      var key :| Unresolved(y, key) && key.target == move.op.target;
      ForcedUnmarked(y.store, key);
      assert Unresolved(z, key);
    } else {
      NextStore(y, move);
      forall key | Unresolved(z, key) ensures Marked(z.store, key) {
        StaysMarked(y, move, key);
      }
    }
  }

  lemma ForcedUnmarked(s: Store, key: Key)
    requires Marked(s, key)
    ensures !Marked(Step(s, OpForceDelete(key.target)), key)
  {
  }

  lemma NextStore(y: System, move: Move)
    requires Guarded(y)
    ensures Inv(Next(y, move).store) && Fenced(Next(y, move).store)
  {
    hide Inv, Fenced, Step, Perform, AllMarked;
    match move
    case Other(op) =>
      StepKeeps(y.store, op);
      StepFenced(y.store, op);
    case Begin(key, state) =>
      StepKeeps(y.store, BeginOp(key, state));
      StepFenced(y.store, BeginOp(key, state));
    case Acknowledge(key) =>
      StepKeeps(y.store, AckOp(key));
      StepFenced(y.store, AckOp(key));
    case _ =>
  }

  lemma StaysMarked(y: System, move: Move, key: Key)
    requires Guarded(y) && !Overrides(y, move) && Unresolved(Next(y, move), key)
    ensures Marked(Next(y, move).store, key)
  {
    hide Inv, Fenced, Step, Perform, Marked;
    match move
    case Other(op) =>
      if !op.OpBeginEffect? && !op.OpAckEffect? {
        OtherMarked(y, op, key);
      }
    case Begin(begun, state) =>
      if begun !in y.work && Perform(y.store, BeginOp(begun, state)).Ok? {
        BeginMarks(y.store, begun, state);
        if key != begun {
          BeginRefused(y, begun, state, key);
        }
      }
    case Acknowledge(done) =>
      if At(y, done, {Begun, Answered}) {
        OneUnresolved(y, key, done);
      }
    case _ =>
  }

  /** No move of the run overrides an unresolved mutation. */
  ghost predicate Unforced(y: System, moves: seq<Move>)
    decreases |moves|
  {
    moves != [] ==>
      && Unforced(y, moves[..|moves| - 1])
      && !Overrides(RunMoves(y, moves[..|moves| - 1]), moves[|moves| - 1])
  }

  lemma {:induction false} RunGuarded(moves: seq<Move>)
    requires Unforced(NewSystem(), moves)
    ensures Guarded(RunMoves(NewSystem(), moves))
    decreases |moves|
  {
    hide Inv, Fenced, Next, AllMarked, Overrides;
    if moves == [] {
      RunFenced([]);
      NothingUnresolved();
    } else {
      RunGuarded(moves[..|moves| - 1]);
      NextGuarded(RunMoves(NewSystem(), moves[..|moves| - 1]), moves[|moves| - 1]);
    }
  }

  lemma NothingUnresolved()
    ensures AllMarked(NewSystem())
  {
  }

  /**
   In every interleaving of any number of drivers, with leases expiring and
   answers lost at any point, at most one mutation made for the instance is in
   flight or otherwise unresolved; and the claim it was made under is still the
   newest of its row. Only an operator's override can change that.
   */
  lemma OneMutationInFlight(moves: seq<Move>, key: Key, other: Key)
    requires Unforced(NewSystem(), moves) && Unresolved(RunMoves(NewSystem(), moves), key)
    ensures Marked(RunMoves(NewSystem(), moves).store, key)
    ensures Unresolved(RunMoves(NewSystem(), moves), other) ==> other == key
  {
    hide Inv, Fenced, RunMoves, Marked, Unresolved;
    RunGuarded(moves);
    if Unresolved(RunMoves(NewSystem(), moves), other) {
      OneUnresolved(RunMoves(NewSystem(), moves), key, other);
    }
  }

  // ---- calls as moves ----------------------------------------------------

  /** The transactions behind some moves. */
  function OpsOf(moves: seq<Move>): seq<Op> {
    if moves == [] then [] else OpsOf(moves[..|moves| - 1]) + OpOf(moves[|moves| - 1])
  }

  function OpOf(move: Move): seq<Op> {
    match move
    case Other(op) => [op]
    case Begin(key, state) => [BeginOp(key, state)]
    case Acknowledge(key) => [AckOp(key)]
    case _ => []
  }

  /** The moves made for one mutation. */
  function Own(moves: seq<Move>, key: Key): seq<Move> {
    if moves == [] then []
    else
      var last := moves[|moves| - 1];
      Own(moves[..|moves| - 1], key) + if !last.Other? && last.key == key then [last] else []
  }

  /** What the client may do next for a mutation, after `own`. */
  predicate May(own: seq<Move>, move: Move) {
    match move
    case Other(_) => false
    case Begin(_, _) => own == []
    case Dispatch(_) => own != [] && own[|own| - 1].Begin?
    case Arrive(_) => own != [] && own[|own| - 1].Dispatch?
    case Answer(_) => own != [] && (own[|own| - 1].Dispatch? || own[|own| - 1].Arrive?)
    case Acknowledge(_) => own == [] || own[|own| - 1].Begin? || own[|own| - 1].Answer?
  }

  /** The client kept to the protocol: in particular it resolved no mutation that may still arrive. */
  ghost predicate Lawful(own: seq<Move>) { forall i :: 0 <= i < |own| ==> May(own[..i], own[i]) }

  function PhaseAfter(move: Move): Phase
    requires !move.Other?
  {
    match move
    case Begin(_, _) => Begun
    case Dispatch(_) => Flying
    case Arrive(_) => Arrived
    case Answer(_) => Answered
    case Acknowledge(_) => Closed
  }

  /** Nothing is known of the mutation, in the system or in its row. */
  ghost predicate Unheard(y: System, key: Key) {
    key !in y.work && (key.target in y.store.rows ==> y.store.rows[key.target].effect != Some(key.mark))
  }

  /** The mutation is where its own moves left it, or its begin was refused. */
  ghost predicate Placed(y: System, key: Key, own: seq<Move>) {
    if own == [] then Unheard(y, key)
    else
      && !own[|own| - 1].Other?
      && (Unheard(y, key) || (key in y.work && y.work[key] == PhaseAfter(own[|own| - 1])))
  }

  predicate Fencing(op: Op) { op.OpBeginEffect? || op.OpAckEffect? }

  lemma PlainUnheard(s: Store, op: Op, key: Key)
    requires !Fencing(op) && (key.target in s.rows ==> s.rows[key.target].effect != Some(key.mark))
    ensures key.target in Step(s, op).rows ==> Step(s, op).rows[key.target].effect != Some(key.mark)
  {
    hide AllDeleted;
  }

  lemma OtherPlaced(y: System, op: Op, key: Key, own: seq<Move>)
    requires Placed(y, key, own) && !Fencing(op)
    ensures Placed(Next(y, Other(op)), key, own) && Next(y, Other(op)).store == Step(y.store, op)
  {
    hide Step;
    if Unheard(y, key) {
      PlainUnheard(y.store, op, key);
    }
  }

  /** A move for one mutation leaves every other where it is. */
  lemma ElsewherePlaced(y: System, move: Move, key: Key, own: seq<Move>)
    requires Placed(y, key, own) && !move.Other? && move.key != key
    ensures Placed(Next(y, move), key, own)
  {
  }

  lemma OwnPlaced(y: System, move: Move, own: seq<Move>)
    requires !move.Other? && Placed(y, move.key, own) && May(own, move)
    ensures Placed(Next(y, move), move.key, own + [move])
    ensures OpOf(move) == [] ==> Next(y, move).store == y.store
    ensures OpOf(move) != [] ==> |OpOf(move)| == 1 && Next(y, move).store == Step(y.store, OpOf(move)[0])
  {
  }

  /** The moves are of clients that keep to the protocol, each for a mutation unheard of, and plain transactions. */
  ghost predicate Clean(y: System, moves: seq<Move>) {
    && (forall i :: 0 <= i < |moves| ==> if moves[i].Other? then !Fencing(moves[i].op) else Unheard(y, moves[i].key))
    && (forall key :: Lawful(Own(moves, key)))
  }

  lemma OwnSnoc(moves: seq<Move>, key: Key)
    requires moves != []
    ensures
      var n := |moves| - 1;
      Own(moves, key) == Own(moves[..n], key)
        + if !moves[n].Other? && moves[n].key == key then [moves[n]] else []
  {
  }

  lemma LawfulPrefix(own: seq<Move>, move: Move)
    requires Lawful(own + [move])
    ensures Lawful(own) && May(own, move)
  {
    assert (own + [move])[..|own|] == own;
    forall i | 0 <= i < |own| ensures May(own[..i], own[i]) {
      assert (own + [move])[..i] == own[..i] && (own + [move])[i] == own[i];
    }
  }

  lemma LawfulSnoc(own: seq<Move>, move: Move)
    requires Lawful(own) && May(own, move)
    ensures Lawful(own + [move])
  {
    hide May;
    forall i | 0 <= i < |own + [move]| ensures May((own + [move])[..i], (own + [move])[i]) {
      if i < |own| {
        assert (own + [move])[..i] == own[..i] && (own + [move])[i] == own[i];
      } else {
        assert (own + [move])[..i] == own;
      }
    }
  }

  lemma CleanPrefix(y: System, moves: seq<Move>)
    requires moves != [] && Clean(y, moves)
    ensures Clean(y, moves[..|moves| - 1])
    ensures
      var move := moves[|moves| - 1];
      !move.Other? ==> May(Own(moves[..|moves| - 1], move.key), move)
  {
    hide Lawful, Unheard, Own;
    var n := |moves| - 1;
    forall key ensures Lawful(Own(moves[..n], key)) {
      OwnSnoc(moves, key);
      assert Lawful(Own(moves, key));
      if !moves[n].Other? && moves[n].key == key {
        LawfulPrefix(Own(moves[..n], key), moves[n]);
      } else {
        assert Own(moves[..n], key) + [] == Own(moves[..n], key);
      }
    }
    if !moves[n].Other? {
      OwnSnoc(moves, moves[n].key);
      LawfulPrefix(Own(moves[..n], moves[n].key), moves[n]);
    }
  }

  /**
   Any interleaving of calls that keep to the protocol is a run of this system:
   its moves make of the store what the transactions behind them make of it, and
   leave each mutation in the phase of its last move, unless its begin was refused.
   */
  lemma {:induction false} CallsAreMoves(y: System, moves: seq<Move>, key: Key)
    requires Clean(y, moves) && Unheard(y, key)
    ensures RunMoves(y, moves).store == Run(y.store, OpsOf(moves))
    ensures Placed(RunMoves(y, moves), key, Own(moves, key))
    decreases |moves|
  {
    hide Unheard, Placed, Next, Step, Clean, May, Own, OpOf;
    if moves == [] {
      NothingPlaced(y, key);
    } else {
      var n := |moves| - 1;
      var before, move := RunMoves(y, moves[..n]), moves[n];
      CleanPrefix(y, moves);
      CallsAreMoves(y, moves[..n], key);
      OwnSnoc(moves, key);
      if move.Other? {
        CleanOther(y, moves, n);
        OtherPlaced(before, move.op, key, Own(moves[..n], key));
        OneOp(y.store, OpsOf(moves[..n]), move);
        assert Own(moves[..n], key) + [] == Own(moves[..n], key);
      } else {
        CleanOther(y, moves, n);
        CallsAreMoves(y, moves[..n], move.key);
        OwnPlaced(before, move, Own(moves[..n], move.key));
        OneOp(y.store, OpsOf(moves[..n]), move);
        if move.key != key {
          ElsewherePlaced(before, move, key, Own(moves[..n], key));
          assert Own(moves[..n], key) + [] == Own(moves[..n], key);
        }
      }
    }
  }

  lemma NothingPlaced(y: System, key: Key)
    requires Unheard(y, key)
    ensures Placed(y, key, Own([], key)) && OpsOf([]) == []
  {
  }

  lemma CleanOther(y: System, moves: seq<Move>, n: nat)
    requires n < |moves| && Clean(y, moves)
    ensures if moves[n].Other? then !Fencing(moves[n].op) else Unheard(y, moves[n].key)
  {
  }

  lemma OneOp(s: Store, ops: seq<Op>, move: Move)
    ensures |OpOf(move)| <= 1
    ensures Run(s, ops + OpOf(move)) == if OpOf(move) == [] then Run(s, ops) else Step(Run(s, ops), OpOf(move)[0])
    ensures move.Other? ==> OpOf(move) == [move.op]
  {
    hide Step, Run;
    if OpOf(move) == [] {
      assert ops + [] == ops;
    } else {
      RunSnoc(s, ops, OpOf(move)[0]);
    }
  }

  // ---- one client's moves ------------------------------------------------

  /** A call for `key` took the store from `s` to `s'` by these moves, its own among those of others. */
  ghost predicate Made(s: Store, s': Store, moves: seq<Move>, key: Key, own: seq<Move>) {
    && s' == Run(s, OpsOf(moves)) && Own(moves, key) == own
    && forall i :: 0 <= i < |moves| ==> moves[i].Other? || moves[i].key == key
  }

  function Others(ops: seq<Op>): (r: seq<Move>)
    ensures |r| == |ops| && forall i :: 0 <= i < |ops| ==> r[i] == Other(ops[i])
  {
    seq(|ops|, i requires 0 <= i < |ops| => Other(ops[i]))
  }

  lemma {:induction false} OwnAppend(a: seq<Move>, b: seq<Move>, key: Key)
    ensures Own(a + b, key) == Own(a, key) + Own(b, key)
  {
    if b == [] {
      assert a + b == a;
    } else {
      var n := |b| - 1;
      assert (a + b)[..|a| + n] == a + b[..n];
      OwnAppend(a, b[..n], key);
    }
  }

  lemma {:induction false} OpsAppend(a: seq<Move>, b: seq<Move>)
    ensures OpsOf(a + b) == OpsOf(a) + OpsOf(b)
  {
    hide OpOf;
    if b == [] {
      assert a + b == a;
    } else {
      var n := |b| - 1;
      assert (a + b)[..|a| + n] == a + b[..n];
      OpsAppend(a, b[..n]);
    }
  }

  lemma {:induction false} RunAppend(s: Store, a: seq<Op>, b: seq<Op>)
    ensures Run(s, a + b) == Run(Run(s, a), b)
    decreases |b|
  {
    hide Step;
    if b == [] {
      assert a + b == a;
    } else {
      var n := |b| - 1;
      assert (a + b)[..|a| + n] == a + b[..n];
      RunAppend(s, a, b[..n]);
    }
  }

  lemma {:induction false} OthersMade(s: Store, ops: seq<Op>, key: Key)
    ensures Made(s, Run(s, ops), Others(ops), key, [])
  {
    hide Step, Run;
    OthersAre(ops, key);
  }

  lemma {:induction false} OthersAre(ops: seq<Op>, key: Key)
    ensures OpsOf(Others(ops)) == ops && Own(Others(ops), key) == []
  {
    if ops != [] {
      var n := |ops| - 1;
      assert Others(ops)[..n] == Others(ops[..n]);
      OthersAre(ops[..n], key);
    }
  }

  lemma MoveMade(s: Store, move: Move)
    requires !move.Other?
    ensures Made(s, if OpOf(move) == [] then s else Step(s, OpOf(move)[0]), [move], move.key, [move])
  {
    hide Step, Own, OpsOf;
    assert OpsOf([move]) == [] + OpOf(move) && Own([move], move.key) == [] + [move] by {
      OneMoveOnly(move);
    }
    OneOp(s, [], move);
    NoOps(s);
  }

  lemma OneMoveOnly(move: Move)
    requires !move.Other?
    ensures OpsOf([move]) == [] + OpOf(move) && Own([move], move.key) == [] + [move]
  {
    hide OpOf;
    assert [move][..0] == [];
  }

  lemma NoOps(s: Store)
    ensures Run(s, []) == s
  {
  }

  lemma NothingMade(s: Store, key: Key)
    ensures Made(s, s, [], key, [])
  {
  }

  lemma MadeJoins(a: Store, b: Store, c: Store, first: seq<Move>, second: seq<Move>, key: Key, own: seq<Move>,
                  more: seq<Move>)
    requires Made(a, b, first, key, own) && Made(b, c, second, key, more)
    ensures Made(a, c, first + second, key, own + more)
  {
    hide Run, Own, OpsOf;
    OwnAppend(first, second, key);
    OpsAppend(first, second);
    RunAppend(a, OpsOf(first), OpsOf(second));
  }

  /** Others ran first, then came the move. */
  lemma CallMade(s: Store, ran: seq<Op>, move: Move)
    requires !move.Other? && OpOf(move) != []
    ensures Made(s, Step(Run(s, ran), OpOf(move)[0]), Others(ran) + [move], move.key, [move])
  {
    hide Step, Run, Made, Others, OpOf;
    OthersMade(s, ran, move.key);
    MoveMade(Run(s, ran), move);
    MadeJoins(s, Run(s, ran), Step(Run(s, ran), OpOf(move)[0]), Others(ran), [move], move.key, [], [move]);
    assert [] + [move] == [move];
  }

  // ---- the override ------------------------------------------------------

  /** Wake the instance, Cold at `g`, claim the row and let a first mutation fly. */
  function TakeOff(target: string, g: nat, attempt: nat): seq<Move> {
    [Other(OpAcceptWake(g, target, g + 1, g + 2)), Other(OpClaim(target, "driver", true)),
      Begin(Flight(target, g, attempt), PendingRow), Dispatch(Flight(target, g, attempt))]
  }

  function Flight(target: string, g: nat, attempt: nat): Key {
    Key(target, EffectMark(Claim("driver", attempt, g + 1), 0))
  }

  /** Remove the row, delete the instance and create it again. */
  function ForcedRecreation(target: string, g: nat): seq<Move> {
    [Other(OpForceDelete(target)), Other(OpRequestDeletion(g + 1)), Other(OpFinalizeDeletion), Other(OpCreate)]
  }

  lemma OneMove(y: System, moves: seq<Move>, move: Move)
    ensures RunMoves(y, moves + [move]) == Next(RunMoves(y, moves), move)
  {
    hide Next;
    assert (moves + [move])[..|moves|] == moves;
  }

  lemma NoMove(y: System)
    ensures RunMoves(y, []) == y
  {
  }

  lemma Four(y: System, a: Move, b: Move, c: Move, d: Move)
    ensures RunMoves(y, [a, b, c, d]) == Next(Next(Next(Next(y, a), b), c), d)
  {
    hide Next, RunMoves;
    assert [] + [a] == [a] && [a] + [b] == [a, b] && [a, b] + [c] == [a, b, c] && [a, b, c] + [d] == [a, b, c, d];
    OneMove(y, [], a);
    OneMove(y, [a], b);
    OneMove(y, [a, b], c);
    OneMove(y, [a, b, c], d);
    NoMove(y);
  }

  lemma TookOff(y: System, target: string, g: nat)
    requires y.store.instance == Some(Instance(Cold, g)) && y.store.deferred.None? && y.store.rows == map[]
    requires Flight(target, g, 1) !in y.work
    ensures
      var z := RunMoves(y, TakeOff(target, g, 1));
      && z.work == y.work[Flight(target, g, 1) := Flying] && z.store.deferred.None?
      && z.store.instance == Some(Instance(Waking, g + 1)) && z.store.rows.Keys == {target}
      && z.store.watermark == Some(g + 1)
  {
    hide RunMoves, Next, Step;
    var m := TakeOff(target, g, 1);
    Four(y, m[0], m[1], m[2], m[3]);
    Accepted(y, target, g);
    var waking := Next(y, m[0]);
    Claimed(waking, target, g);
    Began(Next(waking, m[1]), target, g);
    assert Next(Next(Next(Next(y, m[0]), m[1]), m[2]), m[3]).work == y.work[Flight(target, g, 1) := Flying];
  }

  /** The instance is Waking for `target` with this many claims so far, held by the driver if there was one. */
  ghost predicate WakingOn(s: Store, target: string, g: nat, attempts: nat) {
    && s.instance == Some(Instance(Waking, g + 1)) && s.watermark == Some(g + 1) && s.deferred.None?
    && s.rows.Keys == {target} && s.rows[target].state == PendingRow && s.rows[target].stamp == g + 1
    && s.rows[target].attempts == attempts && s.rows[target].effect.None?
    && s.rows[target].lease == if attempts == 0 then None else Some(Lease("driver", attempts, true))
  }

  lemma Accepted(y: System, target: string, g: nat)
    requires y.store.instance == Some(Instance(Cold, g)) && y.store.deferred.None? && y.store.rows == map[]
    ensures
      var z := Next(y, Other(OpAcceptWake(g, target, g + 1, g + 2)));
      z.work == y.work && WakingOn(z.store, target, g, 0)
  {
  }

  lemma Claimed(y: System, target: string, g: nat)
    requires WakingOn(y.store, target, g, 0)
    ensures
      var z := Next(y, Other(OpClaim(target, "driver", true)));
      z.work == y.work && WakingOn(z.store, target, g, 1)
  {
  }

  lemma Began(y: System, target: string, g: nat)
    requires WakingOn(y.store, target, g, 1) && Flight(target, g, 1) !in y.work
    ensures
      var z := Next(Next(y, Begin(Flight(target, g, 1), PendingRow)), Dispatch(Flight(target, g, 1)));
      && z.work == y.work[Flight(target, g, 1) := Flying] && z.store.deferred.None?
      && z.store.instance == Some(Instance(Waking, g + 1)) && z.store.watermark == Some(g + 1)
      && z.store.rows.Keys == {target}
  {
  }

  lemma Recreated(y: System, target: string, g: nat)
    requires y.store.instance == Some(Instance(Waking, g + 1)) && y.store.deferred.None?
    requires y.store.rows.Keys == {target} && y.store.watermark == Some(g + 1)
    ensures
      var z := RunMoves(y, ForcedRecreation(target, g));
      && z.work == y.work && z.store.deferred.None?
      && z.store.instance == Some(Instance(Cold, g + 3)) && z.store.rows == map[]
  {
    hide RunMoves, Next;
    var m := ForcedRecreation(target, g);
    Four(y, m[0], m[1], m[2], m[3]);
    ForcedOut(y, target, g);
    CreatedAgain(Next(Next(y, m[0]), m[1]), g);
  }

  lemma ForcedOut(y: System, target: string, g: nat)
    requires y.store.instance == Some(Instance(Waking, g + 1)) && y.store.deferred.None?
    requires y.store.rows.Keys == {target}
    ensures
      var z := Next(Next(y, Other(OpForceDelete(target))), Other(OpRequestDeletion(g + 1)));
      && z.work == y.work && z.store.deferred.None? && AllDeleted(z.store)
      && z.store.instance == Some(Instance(Deleting, g + 2)) && z.store.watermark == Some(g + 2)
  {
  }

  lemma CreatedAgain(y: System, g: nat)
    requires y.store.instance == Some(Instance(Deleting, g + 2)) && y.store.watermark == Some(g + 2)
    requires AllDeleted(y.store) && y.store.deferred.None?
    ensures
      var z := Next(Next(y, Other(OpFinalizeDeletion)), Other(OpCreate));
      && z.work == y.work && z.store.deferred.None?
      && z.store.instance == Some(Instance(Cold, g + 3)) && z.store.rows == map[]
  {
  }

  /** After an override and re-creation, two mutations for one row are in flight. */
  lemma OverrideLetsTwoFly(target: string)
    ensures
      var y := RunMoves(RunMoves(RunMoves(RunMoves(NewSystem(), [Other(OpCreate)]), TakeOff(target, 0, 1)),
                                 ForcedRecreation(target, 0)), TakeOff(target, 3, 1));
      At(y, Flight(target, 0, 1), {Flying}) && At(y, Flight(target, 3, 1), {Flying})
  {
    var a := RunMoves(NewSystem(), [Other(OpCreate)]);
    assert [Other(OpCreate)][..0] == [];
    TookOff(a, target, 0);
    var b := RunMoves(a, TakeOff(target, 0, 1));
    Recreated(b, target, 0);
    TookOff(RunMoves(b, ForcedRecreation(target, 0)), target, 3);
  }
}
