/** Teams, finished sets, match settings and the set-win rule of the volleyball scorekeeper. */
module Rules {

  datatype Option<T> = None | Some(value: T)

  /** The two sides, written 'a' and 'b' in the scorekeeper. */
  datatype TeamId = A | B

  function Other(t: TeamId): (o: TeamId)
    ensures o != t
  {
    if t == A then B else A
  }

  /** One side of the scoreboard; `sets` is the number of sets this team has won. */
  datatype Team = Team(name: string, score: int, sets: int, serving: bool)

  /** One finished set as it is appended to the set history. */
  datatype SetResult = SetResult(setNumber: int, scoreA: int, scoreB: int, winner: TeamId)

  /** Match rules; `soundEnabled` only gates sound and plays no part in scoring. */
  datatype Settings = Settings(pointsToWin: int, minDifference: int, setsToWin: int, tiebreakPoints: int, soundEnabled: bool)

  const DefaultSettings: Settings := Settings(25, 2, 3, 15, true)

  /** Settings are taken as positive integers. */
  predicate SettingsValid(s: Settings) {
    s.pointsToWin > 0 && s.minDifference > 0 && s.setsToWin > 0 && s.tiebreakPoints > 0
  }

  /** Number of the last set a match can reach: the deciding (tiebreak) set. */
  function MaxSets(s: Settings): int {
    s.setsToWin * 2 - 1
  }

  /** Points a team needs in set `currentSet`: the tiebreak target in the deciding set, else the normal target. */
  function PointsNeeded(s: Settings, currentSet: int): int {
    if currentSet == MaxSets(s) then s.tiebreakPoints else s.pointsToWin
  }

  /** A team with `score` against `opponent` has reached the target with the minimum lead. */
  predicate Reaches(score: int, opponent: int, s: Settings, currentSet: int) {
    score >= PointsNeeded(s, currentSet) && score - opponent >= s.minDifference
  }

  /** The winner of the current set, if any; team A is tested first. */
  function SetWinner(a: Team, b: Team, currentSet: int, s: Settings): (w: Option<TeamId>)
    ensures w == Some(A) <==> Reaches(a.score, b.score, s, currentSet)
    ensures w == Some(B) <==> !Reaches(a.score, b.score, s, currentSet) && Reaches(b.score, a.score, s, currentSet)
    ensures w == None <==> !Reaches(a.score, b.score, s, currentSet) && !Reaches(b.score, a.score, s, currentSet)
  {
    if Reaches(a.score, b.score, s, currentSet) then Some(A)
    else if Reaches(b.score, a.score, s, currentSet) then Some(B)
    else None
  }

  /** With a positive minimum lead both teams can never meet the test at once, so testing A first decides nothing. */
  lemma SetWinnerOrderFree(a: Team, b: Team, currentSet: int, s: Settings)
    requires s.minDifference > 0
    ensures SetWinner(a, b, currentSet, s) == Some(B) <==> Reaches(b.score, a.score, s, currentSet)
    ensures SetWinner(a, b, currentSet, s) == Some(A) <==> SetWinner(b, a, currentSet, s) == Some(B)
    ensures SetWinner(a, b, currentSet, s) == Some(B) <==> SetWinner(b, a, currentSet, s) == Some(A)
  {
  }

  /** A set winner has at least the points the set needs and strictly more points than the loser. */
  lemma SetWinnerLeads(a: Team, b: Team, currentSet: int, s: Settings)
    requires SettingsValid(s)
    ensures SetWinner(a, b, currentSet, s) == Some(A) ==> a.score >= PointsNeeded(s, currentSet) && a.score > b.score
    ensures SetWinner(a, b, currentSet, s) == Some(B) ==> b.score >= PointsNeeded(s, currentSet) && b.score > a.score
  {
  }

  /** Number of sets in `h` won by `t`. */
  function Wins(h: seq<SetResult>, t: TeamId): (n: nat)
    ensures n <= |h|
  {
    if h == [] then 0 else Wins(h[..|h| - 1], t) + (if h[|h| - 1].winner == t then 1 else 0)
  }

  /** Appending a set result adds one win to its winner and none to the other team. */
  lemma WinsAppend(h: seq<SetResult>, r: SetResult, t: TeamId)
    ensures Wins(h + [r], t) == Wins(h, t) + (if r.winner == t then 1 else 0)
  {
    assert (h + [r])[..|h|] == h;
  }

  /** Every recorded set has exactly one winner. */
  lemma {:induction false} WinsPartition(h: seq<SetResult>)
    ensures Wins(h, A) + Wins(h, B) == |h|
  {
    if h != [] {
      WinsPartition(h[..|h| - 1]);
    }
  }
}
