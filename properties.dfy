/**
 * Properties of whole sequences of scorekeeper operations: the invariant holds in every reachable state,
 * undo walks back any run of up to 50 recorded operations, and the scoring scenarios of the set-win rule.
 */
module Properties {
  import opened Rules
  import UndoStack
  import Engine

  /** One user action, as dispatched by the buttons and the keyboard. */
  datatype Op =
    | AddPointOp(team: TeamId)
    | RemovePointOp(team: TeamId)
    | SwitchServeOp
    | StartNewSetOp
    | ResetGameOp
    | UndoOp

  function Apply(g: Engine.Game, op: Op): Engine.Game {
    match op
    case AddPointOp(t) => Engine.AddPoint(g, t)
    case RemovePointOp(t) => Engine.RemovePoint(g, t)
    case SwitchServeOp => Engine.SwitchServe(g)
    case StartNewSetOp => Engine.StartNewSet(g)
    case ResetGameOp => Engine.ResetGame(g)
    case UndoOp => Engine.Undo(g)
  }

  /** The state after performing `ops` in order, starting from `g`. */
  function Run(g: Engine.Game, ops: seq<Op>): Engine.Game
    decreases |ops|
  {
    if ops == [] then g else Run(Apply(g, ops[0]), ops[1..])
  }

  /** `n` copies of `op`. */
  function Repeat(op: Op, n: nat): (ops: seq<Op>)
    ensures |ops| == n
    ensures forall i :: 0 <= i < n ==> ops[i] == op
  {
    if n == 0 then [] else Repeat(op, n - 1) + [op]
  }

  lemma {:induction false} RunAppend(g: Engine.Game, ops: seq<Op>, op: Op)
    ensures Run(g, ops + [op]) == Apply(Run(g, ops), op)
    decreases |ops|
  {
    if ops == [] {
      assert [op][1..] == [];
    } else {
      assert (ops + [op])[1..] == ops[1..] + [op];
      RunAppend(Apply(g, ops[0]), ops[1..], op);
    }
  }

  // ---------------------------------------------------------------------------
  // The invariant in every reachable state

  lemma ApplyValid(g: Engine.Game, op: Op)
    requires Engine.Valid(g)
    ensures Engine.Valid(Apply(g, op))
  {
    match op
    case AddPointOp(t) => Engine.AddPointValid(g, t);
    case RemovePointOp(t) => Engine.RemovePointValid(g, t);
    case SwitchServeOp => Engine.SwitchServeValid(g);
    case StartNewSetOp => Engine.StartNewSetValid(g);
    case ResetGameOp => Engine.ResetGameValid(g);
    case UndoOp => Engine.UndoValid(g);
  }

  lemma {:induction false} RunValid(g: Engine.Game, ops: seq<Op>)
    requires Engine.Valid(g)
    ensures Engine.Valid(Run(g, ops))
    decreases |ops|
  {
    if ops != [] {
      ApplyValid(g, ops[0]);
      RunValid(Apply(g, ops[0]), ops[1..]);
    }
  }

  /**
   * Whatever the user does from the initial state: no score is negative, exactly one team serves, the
   * undo stack holds at most 50 snapshots, and the sets won add up to the number of recorded sets.
   */
  lemma ReachableState(settings: Settings, ops: seq<Op>)
    requires SettingsValid(settings)
    ensures var r := Run(Engine.Initial(settings), ops);
      r.teamA.score >= 0 && r.teamB.score >= 0 &&
      r.teamA.serving != r.teamB.serving &&
      |r.history| <= UndoStack.Capacity &&
      r.currentSet >= 1 &&
      r.teamA.sets + r.teamB.sets == |r.setHistory|
  {
    Engine.InitialValid(settings);
    RunValid(Engine.Initial(settings), ops);
    WinsPartition(Run(Engine.Initial(settings), ops).setHistory);
  }

  // ---------------------------------------------------------------------------
  // Undo

  /** The operations that push a snapshot in state `g`: all but reset, undo, and a refused startNewSet. */
  predicate Pushes(g: Engine.Game, op: Op) {
    match op
    case AddPointOp(_) => true
    case RemovePointOp(_) => true
    case SwitchServeOp => true
    case StartNewSetOp => !Engine.NewSetBlocked(g)
    case ResetGameOp => false
    case UndoOp => false
  }

  /** Every operation of `ops` pushes a snapshot in the state it runs in. */
  predicate AllPush(g: Engine.Game, ops: seq<Op>)
    decreases |ops|
  {
    ops == [] || (Pushes(g, ops[0]) && AllPush(Apply(g, ops[0]), ops[1..]))
  }

  lemma PushingHistory(g: Engine.Game, op: Op)
    requires Pushes(g, op)
    ensures Apply(g, op).history == UndoStack.Push(g.history, Engine.Snap(g))
  {
  }

  /**
   * Undo right after an operation that pushed gives back the state before it, settings included; only when
   * the stack was full has the oldest snapshot been lost.
   */
  lemma UndoAfterPush(g: Engine.Game, op: Op)
    requires Pushes(g, op)
    ensures Engine.Undo(Apply(g, op)) == g.(history := if |g.history| < UndoStack.Capacity then g.history else g.history[1..])
  {
  }

  /** As long as nothing is evicted, k undos cancel the last k recorded operations exactly. */
  lemma {:induction false} UndoUnwindsRun(g: Engine.Game, ops: seq<Op>)
    requires AllPush(g, ops)
    requires |g.history| + |ops| <= UndoStack.Capacity
    ensures Run(Run(g, ops), Repeat(UndoOp, |ops|)) == g
    decreases |ops|
  {
    if ops != [] {
      var g1 := Apply(g, ops[0]);
      var rest := ops[1..];
      PushingHistory(g, ops[0]);
      UndoUnwindsRun(g1, rest);
      var k := |rest|;
      RunAppend(Run(g1, rest), Repeat(UndoOp, k), UndoOp);
      UndoAfterPush(g, ops[0]);
    }
  }

  /** After a reset the undo stack is empty, so undo changes nothing. */
  lemma ResetThenUndo(g: Engine.Game)
    ensures Engine.Undo(Engine.ResetGame(g)) == Engine.ResetGame(g)
  {
  }

  /** The stack holds 50 snapshots at most: pushing onto a full stack drops exactly the oldest. */
  lemma FullStackEvictsOldest(g: Engine.Game, op: Op)
    requires Pushes(g, op) && |g.history| == UndoStack.Capacity
    ensures |Apply(g, op).history| == UndoStack.Capacity
    ensures Apply(g, op).history == g.history[1..] + [Engine.Snap(g)]
  {
  }

  // ---------------------------------------------------------------------------
  // Scenarios with the default settings (25 points, lead of 2, 3 sets, tiebreak to 15)

  lemma {:induction false} StraightPoints(k: nat)
    requires k <= 24
    ensures var r := Run(Engine.Initial(DefaultSettings), Repeat(AddPointOp(A), k));
      r.teamA.score == k && r.teamB.score == 0 && r.teamA.sets == 0 && r.teamB.sets == 0 &&
      r.currentSet == 1 && r.setHistory == [] && r.settings == DefaultSettings
  {
    if k > 0 {
      StraightPoints(k - 1);
      RunAppend(Engine.Initial(DefaultSettings), Repeat(AddPointOp(A), k - 1), AddPointOp(A));
    }
  }

  /** 25 straight points for A from 0-0 win the first set 25-0: one set recorded, A credited one set. */
  lemma TwentyFiveStraightPointsWinSet()
    ensures var r := Run(Engine.Initial(DefaultSettings), Repeat(AddPointOp(A), 25));
      r.setHistory == [SetResult(1, 25, 0, A)] && r.teamA.sets == 1 && r.teamB.sets == 0 &&
      r.teamA.score == 25 && r.teamB.score == 0
  {
    StraightPoints(24);
    RunAppend(Engine.Initial(DefaultSettings), Repeat(AddPointOp(A), 24), AddPointOp(A));
  }

  /** From 24-24, 25-24 is not enough; the next point makes 26-24 and wins the set. */
  lemma Deuce(g: Engine.Game)
    requires g.settings == DefaultSettings && g.currentSet == 1
    requires g.teamA.score == 24 && g.teamB.score == 24
    ensures Engine.AddPoint(g, A).setHistory == g.setHistory
    ensures Engine.AddPoint(Engine.AddPoint(g, A), A).setHistory == g.setHistory + [SetResult(1, 26, 24, A)]
  {
  }

  /** Set 5 of a best-of-five match is the tiebreak, played to 15; set 4 still needs 25. */
  lemma DecidingSetPlayedTo15(g: Engine.Game)
    requires g.settings == DefaultSettings
    requires g.teamA.score == 14 && g.teamB.score == 12
    ensures g.currentSet == 5 ==> Engine.AddPoint(g, A).setHistory == g.setHistory + [SetResult(5, 15, 12, A)]
    ensures g.currentSet == 4 ==> Engine.AddPoint(g, A).setHistory == g.setHistory
  {
  }

  /** With two sets already won, winning the third wins the match rather than just the set. */
  lemma ThirdSetWinsMatch(g: Engine.Game)
    requires g.settings == DefaultSettings && g.currentSet == 3
    requires g.teamA.sets == 2 && g.teamA.score == 24 && g.teamB.score == 20
    ensures Engine.AddPointEvent(g, A) == Engine.MatchWon(A)
    ensures Engine.AddPoint(g, A).teamA.sets == 3
  {
  }

  /**
   * Scoring is not frozen after a win: until startNewSet runs, a point for either team re-runs the
   * set-win test on scores that still meet it, so the same set is recorded again and credited again.
   */
  lemma PointBeforeNewSetRecordsSetAgain(g: Engine.Game)
    requires g.settings == DefaultSettings && g.currentSet == 1
    requires g.teamA.score == 25 && g.teamB.score == 0
    ensures Engine.AddPoint(g, B).setHistory == g.setHistory + [SetResult(1, 25, 1, A)]
    ensures Engine.AddPoint(g, B).teamA.sets == g.teamA.sets + 1
  {
  }
}
