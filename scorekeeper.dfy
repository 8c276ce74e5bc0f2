/**
 * The scorekeeper's single mutable game state and the operations that update it in place.
 * Every method is proved to leave the state that the matching function of Engine describes.
 */
module Scorekeeper {
  import opened Rules
  import UndoStack
  import Engine

  class GameState {
    var teamA: Team
    var teamB: Team
    var currentSet: int
    var setHistory: seq<SetResult>
    var history: seq<Engine.Snapshot>
    var settings: Settings

    /** The state as a value. */
    function Model(): Engine.Game
      reads this
    {
      Engine.Game(teamA, teamB, currentSet, setHistory, history, settings)
    }

    predicate Valid()
      reads this
    {
      Engine.Valid(Model())
    }

    /** The initial game: default names and settings, team A serving, set 1. */
    constructor ()
      ensures Model() == Engine.Initial(DefaultSettings)
      ensures Valid()
    {
      teamA := Team("TIME A", 0, 0, true);
      teamB := Team("TIME B", 0, 0, false);
      currentSet := 1;
      setHistory := [];
      history := [];
      settings := DefaultSettings;
      new;
      Engine.InitialValid(DefaultSettings);
    }

    method SaveHistory()
      modifies this
      ensures Model() == Engine.SaveHistory(old(Model()))
      ensures old(Valid()) ==> Valid()
    {
      ghost var g := Model();
      history := history + [Engine.Snapshot(teamA, teamB, currentSet, setHistory)];
      if |history| > UndoStack.Capacity {
        history := history[1..];
      }
      if Engine.Valid(g) { Engine.SaveHistoryValid(g); }
    }

    method AddPoint(t: TeamId) returns (event: Engine.Event)
      modifies this
      ensures Model() == Engine.AddPoint(old(Model()), t)
      ensures event == Engine.AddPointEvent(old(Model()), t)
      ensures old(Valid()) ==> Valid()
    {
      ghost var g := Model();
      SaveHistory();
      if t == A {
        teamA := teamA.(score := teamA.score + 1);
      } else {
        teamB := teamB.(score := teamB.score + 1);
      }
      event := CheckSetWin();
      if Engine.Valid(g) { Engine.AddPointValid(g, t); }
    }

    method CheckSetWin() returns (event: Engine.Event)
      modifies this
      ensures Model() == Engine.CheckSetWin(old(Model()))
      ensures event == Engine.SetEvent(old(Model()))
      ensures old(Valid()) ==> Valid()
    {
      ghost var g := Model();
      var maxSets := settings.setsToWin * 2 - 1;
      var isTiebreak := currentSet == maxSets;
      var pointsNeeded := if isTiebreak then settings.tiebreakPoints else settings.pointsToWin;
      var winner: Option<TeamId> := None;
      if teamA.score >= pointsNeeded && teamA.score - teamB.score >= settings.minDifference {
        winner := Some(A);
      } else if teamB.score >= pointsNeeded && teamB.score - teamA.score >= settings.minDifference {
        winner := Some(B);
      }
      event := Engine.NoSetWon;
      if winner.Some? {
        setHistory := setHistory + [SetResult(currentSet, teamA.score, teamB.score, winner.value)];
        if winner.value == A {
          teamA := teamA.(sets := teamA.sets + 1);
        } else {
          teamB := teamB.(sets := teamB.sets + 1);
        }
        if teamA.sets >= settings.setsToWin || teamB.sets >= settings.setsToWin {
          event := Engine.MatchWon(winner.value);
        } else {
          event := Engine.SetWon(winner.value, currentSet);
        }
      }
      assert Model() == Engine.CheckSetWin(g);
      if Engine.Valid(g) { Engine.CheckSetWinValid(g); }
    }

    method RemovePoint(t: TeamId)
      modifies this
      ensures Model() == Engine.RemovePoint(old(Model()), t)
      ensures old(Valid()) ==> Valid()
    {
      ghost var g := Model();
      SaveHistory();
      if t == A {
        if teamA.score > 0 {
          teamA := teamA.(score := teamA.score - 1);
        }
      } else {
        if teamB.score > 0 {
          teamB := teamB.(score := teamB.score - 1);
        }
      }
      if Engine.Valid(g) { Engine.RemovePointValid(g, t); }
    }

    method SwitchServe()
      modifies this
      ensures Model() == Engine.SwitchServe(old(Model()))
      ensures old(Valid()) ==> Valid()
    {
      ghost var g := Model();
      SaveHistory();
      teamA := teamA.(serving := !teamA.serving);
      teamB := teamB.(serving := !teamB.serving);
      if Engine.Valid(g) { Engine.SwitchServeValid(g); }
    }

    method StartNewSet()
      modifies this
      ensures Model() == Engine.StartNewSet(old(Model()))
      ensures old(Valid()) ==> Valid()
    {
      ghost var g := Model();
      if teamA.score == 0 && teamB.score == 0 && |setHistory| > 0 {
        return;
      }
      SaveHistory();
      currentSet := currentSet + 1;
      teamA := teamA.(score := 0);
      teamB := teamB.(score := 0);
      if Engine.Valid(g) { Engine.StartNewSetValid(g); }
    }

    /** Reset the match; the caller has already obtained the user's confirmation. */
    method ResetGame()
      modifies this
      ensures Model() == Engine.ResetGame(old(Model()))
      ensures old(Valid()) ==> Valid()
    {
      ghost var g := Model();
      teamA := teamA.(score := 0, sets := 0);
      teamB := teamB.(score := 0, sets := 0);
      currentSet := 1;
      setHistory := [];
      history := [];
      if Engine.Valid(g) { Engine.ResetGameValid(g); }
    }

    /** Restore the newest snapshot; `undone` is false, and nothing changes, when there is nothing to undo. */
    method Undo() returns (undone: bool)
      modifies this
      ensures Model() == Engine.Undo(old(Model()))
      ensures undone <==> |old(history)| > 0
      ensures old(Valid()) ==> Valid()
    {
      ghost var g := Model();
      if |history| == 0 {
        return false;
      }
      var lastState := history[|history| - 1];
      history := history[..|history| - 1];
      teamA := lastState.teamA;
      teamB := lastState.teamB;
      currentSet := lastState.currentSet;
      setHistory := lastState.setHistory;
      undone := true;
      if Engine.Valid(g) { Engine.UndoValid(g); }
    }
  }

  /** A caller's view: one point, then undo, puts back exactly the state before the point. */
  method PointThenUndo(game: GameState, t: TeamId)
    modifies game
    ensures game.Model() == old(game.Model()).(history :=
      if |old(game.history)| < UndoStack.Capacity then old(game.history) else old(game.history)[1..])
  {
    ghost var g := game.Model();
    var _ := game.AddPoint(t);
    var undone := game.Undo();
    assert undone;
    UndoStack.PopAfterPush(g.history, Engine.Snap(g));
  }
}
