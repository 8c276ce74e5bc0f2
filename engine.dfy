/**
 * The match state as a value and one function per core operation of the scorekeeper.
 * Each function gives the state after the operation; the class in Scorekeeper is proved against them.
 */
module Engine {
  import opened Rules
  import UndoStack

  /** What the undo stack keeps: a deep copy of both teams, the set number and the set history. */
  datatype Snapshot = Snapshot(teamA: Team, teamB: Team, currentSet: int, setHistory: seq<SetResult>)

  /** The whole game state, undo stack and settings included. */
  datatype Game = Game(
    teamA: Team,
    teamB: Team,
    currentSet: int,
    setHistory: seq<SetResult>,
    history: seq<Snapshot>,
    settings: Settings)

  /** What the caller is told after a point has been scored. */
  datatype Event = NoSetWon | SetWon(winner: TeamId, setNumber: int) | MatchWon(winner: TeamId)

  /** The state the scorekeeper starts in: team A serving, set 1, nothing recorded. */
  function Initial(settings: Settings): Game {
    Game(Team("TIME A", 0, 0, true), Team("TIME B", 0, 0, false), 1, [], [], settings)
  }

  function TeamOf(g: Game, t: TeamId): Team {
    if t == A then g.teamA else g.teamB
  }

  function WithTeam(g: Game, t: TeamId, team: Team): Game {
    if t == A then g.(teamA := team) else g.(teamB := team)
  }

  function Snap(g: Game): Snapshot {
    Snapshot(g.teamA, g.teamB, g.currentSet, g.setHistory)
  }

  /** The set winner in the current state of `g`. */
  function Winner(g: Game): Option<TeamId> {
    SetWinner(g.teamA, g.teamB, g.currentSet, g.settings)
  }

  /** The match is over once either team has won `setsToWin` sets. */
  predicate MatchOver(g: Game) {
    g.teamA.sets >= g.settings.setsToWin || g.teamB.sets >= g.settings.setsToWin
  }

  /** Starting a new set is refused when the scores are already 0-0 after at least one finished set. */
  predicate NewSetBlocked(g: Game) {
    g.teamA.score == 0 && g.teamB.score == 0 && |g.setHistory| > 0
  }

  // ---------------------------------------------------------------------------
  // Invariants

  /** A recorded set has a positive number and a winner with strictly more points. */
  predicate ResultValid(r: SetResult) {
    r.setNumber >= 1 &&
    (r.winner == A ==> r.scoreA > r.scoreB) &&
    (r.winner == B ==> r.scoreB > r.scoreA)
  }

  /** Scores are never negative, exactly one team serves, sets won agree with the set history. */
  predicate SnapshotValid(s: Snapshot) {
    s.teamA.score >= 0 && s.teamB.score >= 0 &&
    s.teamA.serving != s.teamB.serving &&
    s.currentSet >= 1 &&
    s.teamA.sets == Wins(s.setHistory, A) && s.teamB.sets == Wins(s.setHistory, B) &&
    forall i :: 0 <= i < |s.setHistory| ==> ResultValid(s.setHistory[i])
  }

  /** The live state and every stored snapshot are valid and the undo stack is within its capacity. */
  predicate Valid(g: Game) {
    SnapshotValid(Snap(g)) &&
    SettingsValid(g.settings) &&
    |g.history| <= UndoStack.Capacity &&
    forall i :: 0 <= i < |g.history| ==> SnapshotValid(g.history[i])
  }

  // ---------------------------------------------------------------------------
  // Operations

  /** saveHistory: push a snapshot of the current state; nothing else changes. */
  function SaveHistory(g: Game): (r: Game)
    ensures Snap(r) == Snap(g) && r.settings == g.settings
    ensures r.history == UndoStack.Push(g.history, Snap(g))
    ensures |g.history| <= UndoStack.Capacity ==> |r.history| <= UndoStack.Capacity
  {
    g.(history := UndoStack.Push(g.history, Snap(g)))
  }

  /** checkSetWin: on a set win, record the set and credit the winner one set; scores and set number stay. */
  function CheckSetWin(g: Game): (r: Game)
    ensures r.currentSet == g.currentSet && r.history == g.history && r.settings == g.settings
    ensures r.teamA == g.teamA.(sets := r.teamA.sets) && r.teamB == g.teamB.(sets := r.teamB.sets)
    ensures Winner(g) == None ==> r == g
    ensures Winner(g).Some? ==>
      var w := Winner(g).value;
      r.setHistory == g.setHistory + [SetResult(g.currentSet, g.teamA.score, g.teamB.score, w)] &&
      TeamOf(r, w).sets == TeamOf(g, w).sets + 1 &&
      TeamOf(r, Other(w)) == TeamOf(g, Other(w))
  {
    match Winner(g)
    case None => g
    case Some(w) =>
      var entry := SetResult(g.currentSet, g.teamA.score, g.teamB.score, w);
      var winner := TeamOf(g, w);
      WithTeam(g.(setHistory := g.setHistory + [entry]), w, winner.(sets := winner.sets + 1))
  }

  /** The event checkSetWin reports for state `g`: no win, a set won, or the match won. */
  function SetEvent(g: Game): (e: Event)
    ensures e == NoSetWon <==> Winner(g) == None
    ensures !e.NoSetWon? ==> Winner(g) == Some(e.winner)
    ensures e.MatchWon? <==> Winner(g).Some? && MatchOver(CheckSetWin(g))
    ensures e.SetWon? ==> e.setNumber == g.currentSet
  {
    match Winner(g)
    case None => NoSetWon
    case Some(w) => if MatchOver(CheckSetWin(g)) then MatchWon(w) else SetWon(w, g.currentSet)
  }

  /** The state addPoint hands to checkSetWin: snapshot pushed, team `t` one point up. */
  function PointScored(g: Game, t: TeamId): Game {
    var s := SaveHistory(g);
    WithTeam(s, t, TeamOf(s, t).(score := TeamOf(s, t).score + 1))
  }

  /**
   * addPoint: one snapshot of the old state is pushed, only `t` gains exactly one point, and the
   * set-win test runs on the new scores (which may record a set and credit its winner).
   */
  function AddPoint(g: Game, t: TeamId): (r: Game)
    ensures r.history == UndoStack.Push(g.history, Snap(g))
    ensures TeamOf(r, t).score == TeamOf(g, t).score + 1
    ensures TeamOf(r, Other(t)).score == TeamOf(g, Other(t)).score
    ensures r.teamA.serving == g.teamA.serving && r.teamB.serving == g.teamB.serving
    ensures r.teamA.name == g.teamA.name && r.teamB.name == g.teamB.name
    ensures r.currentSet == g.currentSet && r.settings == g.settings
    ensures r.setHistory == g.setHistory || (|r.setHistory| == |g.setHistory| + 1 && r.setHistory[..|g.setHistory|] == g.setHistory)
    ensures var p := PointScored(g, t);
      Winner(p) == None ==>
        r.setHistory == g.setHistory && r.teamA.sets == g.teamA.sets && r.teamB.sets == g.teamB.sets
    ensures var p := PointScored(g, t);
      Winner(p).Some? ==>
        var w := Winner(p).value;
        r.setHistory == g.setHistory + [SetResult(g.currentSet, p.teamA.score, p.teamB.score, w)] &&
        TeamOf(r, w).sets == TeamOf(g, w).sets + 1 &&
        TeamOf(r, Other(w)).sets == TeamOf(g, Other(w)).sets
  {
    CheckSetWin(PointScored(g, t))
  }

  /** The event addPoint reports. */
  function AddPointEvent(g: Game, t: TeamId): Event {
    SetEvent(PointScored(g, t))
  }

  /**
   * removePoint: a snapshot is pushed first, whether or not a point is taken; the score of `t` drops by
   * one only when it is positive, so a score that is not negative never becomes negative.
   */
  function RemovePoint(g: Game, t: TeamId): (r: Game)
    ensures r.history == UndoStack.Push(g.history, Snap(g))
    ensures TeamOf(g, t).score > 0 ==> TeamOf(r, t) == TeamOf(g, t).(score := TeamOf(g, t).score - 1)
    ensures TeamOf(g, t).score <= 0 ==> TeamOf(r, t) == TeamOf(g, t)
    ensures TeamOf(g, t).score >= 0 ==> TeamOf(r, t).score >= 0
    ensures TeamOf(r, Other(t)) == TeamOf(g, Other(t))
    ensures r.currentSet == g.currentSet && r.setHistory == g.setHistory && r.settings == g.settings
  {
    var s := SaveHistory(g);
    if TeamOf(s, t).score > 0 then WithTeam(s, t, TeamOf(s, t).(score := TeamOf(s, t).score - 1)) else s
  }

  /** switchServe: both serving flags are negated, so exactly one team serves before iff after. */
  function SwitchServe(g: Game): (r: Game)
    ensures r.history == UndoStack.Push(g.history, Snap(g))
    ensures r.teamA == g.teamA.(serving := !g.teamA.serving) && r.teamB == g.teamB.(serving := !g.teamB.serving)
    ensures (r.teamA.serving != r.teamB.serving) <==> (g.teamA.serving != g.teamB.serving)
    ensures r.currentSet == g.currentSet && r.setHistory == g.setHistory && r.settings == g.settings
  {
    var s := SaveHistory(g);
    s.(teamA := s.teamA.(serving := !s.teamA.serving), teamB := s.teamB.(serving := !s.teamB.serving))
  }

  /**
   * startNewSet: nothing at all happens (no snapshot either) when NewSetBlocked; otherwise a snapshot is
   * pushed, the set number rises by one and both scores become 0, leaving sets and set history alone.
   */
  function StartNewSet(g: Game): (r: Game)
    ensures NewSetBlocked(g) ==> r == g
    ensures !NewSetBlocked(g) ==>
      r.history == UndoStack.Push(g.history, Snap(g)) &&
      r.currentSet == g.currentSet + 1 &&
      r.teamA == g.teamA.(score := 0) && r.teamB == g.teamB.(score := 0) &&
      r.setHistory == g.setHistory && r.settings == g.settings
  {
    if NewSetBlocked(g) then g
    else
      var s := SaveHistory(g);
      s.(currentSet := s.currentSet + 1, teamA := s.teamA.(score := 0), teamB := s.teamB.(score := 0))
  }

  /**
   * resetGame, once the caller has confirmed: scores and sets to 0, set 1, empty set history and empty
   * undo stack; names, serving flags and settings are kept.
   */
  function ResetGame(g: Game): (r: Game)
    ensures r.teamA == g.teamA.(score := 0, sets := 0) && r.teamB == g.teamB.(score := 0, sets := 0)
    ensures r.currentSet == 1 && r.setHistory == [] && r.history == [] && r.settings == g.settings
  {
    g.(teamA := g.teamA.(score := 0, sets := 0), teamB := g.teamB.(score := 0, sets := 0),
       currentSet := 1, setHistory := [], history := [])
  }

  /**
   * undo: with an empty stack nothing changes; otherwise the newest snapshot is popped and both teams, the
   * set number and the set history are replaced by it; settings are never touched.
   */
  function Undo(g: Game): (r: Game)
    ensures |g.history| == 0 ==> r == g
    ensures |g.history| > 0 ==>
      Snap(r) == g.history[|g.history| - 1] && g.history == r.history + [Snap(r)]
    ensures r.settings == g.settings
  {
    if |g.history| == 0 then g
    else
      var last := g.history[|g.history| - 1];
      Game(last.teamA, last.teamB, last.currentSet, last.setHistory, UndoStack.Pop(g.history), g.settings)
  }

  // ---------------------------------------------------------------------------
  // Each operation keeps the invariant

  lemma InitialValid(settings: Settings)
    requires SettingsValid(settings)
    ensures Valid(Initial(settings))
  {
  }

  lemma SaveHistoryValid(g: Game)
    requires Valid(g)
    ensures Valid(SaveHistory(g))
  {
  }

  lemma CheckSetWinValid(g: Game)
    requires Valid(g)
    ensures Valid(CheckSetWin(g))
  {
    if Winner(g).Some? {
      var w := Winner(g).value;
      var entry := SetResult(g.currentSet, g.teamA.score, g.teamB.score, w);
      SetWinnerLeads(g.teamA, g.teamB, g.currentSet, g.settings);
      WinsAppend(g.setHistory, entry, A);
      WinsAppend(g.setHistory, entry, B);
    }
  }

  lemma AddPointValid(g: Game, t: TeamId)
    requires Valid(g)
    ensures Valid(AddPoint(g, t))
  {
    SaveHistoryValid(g);
    CheckSetWinValid(PointScored(g, t));
  }

  lemma RemovePointValid(g: Game, t: TeamId)
    requires Valid(g)
    ensures Valid(RemovePoint(g, t))
  {
  }

  lemma SwitchServeValid(g: Game)
    requires Valid(g)
    ensures Valid(SwitchServe(g))
  {
  }

  lemma StartNewSetValid(g: Game)
    requires Valid(g)
    ensures Valid(StartNewSet(g))
  {
  }

  lemma ResetGameValid(g: Game)
    requires Valid(g)
    ensures Valid(ResetGame(g))
  {
  }

  lemma UndoValid(g: Game)
    requires Valid(g)
    ensures Valid(Undo(g))
  {
  }
}
