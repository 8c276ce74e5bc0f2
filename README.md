# Volleyball scorekeeper: scoring and undo state machine

This project models the core of a two-team volleyball scorekeeper in Dafny. The core is a single game state
with these parts:

- two teams, each with a name, a score, the number of sets won and a serving flag;
- the current set number;
- the history of finished sets;
- a bounded undo stack of snapshots;
- the match settings: points to win a set, minimum lead, sets to win the match, tiebreak points.

The state changes through these operations:

- add a point (which then runs the set-win test);
- remove a point;
- switch the serve;
- start a new set;
- reset the game;
- save a snapshot;
- undo.

Files and modules:

- `rules.dfy` (`Rules`): teams, set results, settings, the set-win rule (regular or tiebreak target plus a
  minimum lead, team A tested first), and the count of sets won in a set history.
- `undo_stack.dfy` (`UndoStack`): the bounded undo stack. A push onto a full stack of 50 drops the oldest
  snapshot.
- `engine.dfy` (`Engine`): the game state as a value (`Game`), with one function per operation giving the
  state after it. It also defines the invariant `Valid` and proves that each operation keeps it:
  - no score is negative;
  - exactly one team serves;
  - each team's sets won equal its wins in the set history;
  - every recorded set has a winner who scored more;
  - the undo stack holds at most 50 snapshots, each of which is itself valid.
- `properties.dfy` (`Properties`): any sequence of user actions and what holds across it:
  - the invariant holds in every reachable state;
  - k undos exactly cancel the last k recorded actions while nothing was evicted;
  - reset followed by undo changes nothing;
  - the scoring scenarios: 25-0, 24-24 to 26-24, the tiebreak set played to 15, and the match-winning set.
- `scorekeeper.dfy` (`Scorekeeper`): the class `GameState` with the source's fields, updated in place. Each
  method is proved to produce `Engine`'s state for the same operation, and to keep `Valid`.

Snapshots are immutable datatype values, so the deep copy made by a JSON round trip becomes plain value
copying. A later change to the live state can never reach a stored snapshot.

Where the code departs from what a cleaner design would do, the model follows the code:

- `removePoint` pushes a snapshot before it tests whether the score is positive. At 0 it therefore records
  an undo entry that changes nothing.
- `resetGame` keeps both serving flags; it does not hand the serve back to team A.
- The match is over when either team has reached `setsToWin` sets, not only the team that just won.
- Scoring is not frozen after a set or match win. A point scored before the next set starts reruns the
  set-win test. If the leader still meets it, the same set is recorded again and credited again
  (`Properties.PointBeforeNewSetRecordsSetAgain`).
- A set win does not advance the set by itself. The program calls `startNewSet` after a delay. Here the
  caller invokes `StartNewSet` as a separate operation.

## Model

| member | source | states |
|---|---|---|
| Rules.SetWinner | script.js:249-260 | the winner is A iff A has at least the needed points (tiebreak target in set `setsToWin*2-1`, else the normal target) and leads by at least `minDifference`; B iff A does not qualify and B does so symmetrically; otherwise no winner |
| Rules.SetWinnerOrderFree | script.js:256-260 | with a positive minimum lead both teams never qualify together, so testing A first decides nothing: B wins exactly when B qualifies, and swapping the teams swaps the winner |
| Rules.SetWinnerLeads | script.js:250-260 | a set winner has at least the points the set needs and strictly more points than the loser |
| Rules.WinsPartition | script.js:265-276 | every recorded set credits exactly one team: A's wins plus B's wins equal the number of recorded sets |
| UndoStack.Push | script.js:322-333 | below 50 entries a push appends the snapshot; on a full stack it drops the oldest entry and appends; a stack within 50 stays within 50, and the newest entry is the one pushed |
| UndoStack.Pop | script.js:341 | popping removes exactly the newest entry |
| UndoStack.PopAfterPush | script.js:330-341 | a pop right after a push gives back the previous stack, less its oldest entry when the push evicted one |
| Engine.SaveHistory | script.js:322-333 | saveHistory pushes a snapshot of both teams, the set number and the set history, and changes nothing else |
| Engine.CheckSetWin | script.js:262-276 | with no winner nothing changes; on a win exactly one entry (set number, both scores, winner) is appended and the winner's sets rise by 1; scores, serving, names, set number and the undo stack are unchanged |
| Engine.SetEvent | script.js:278-287 | the outcome is a match win iff there is a set winner and afterwards either team has `setsToWin` sets; otherwise a set win carrying the current set number, or nothing without a winner |
| Engine.AddPoint | script.js:212-227 | addPoint pushes one snapshot of the pre-call state and raises only team t's score, by exactly 1. The other score, serving flags, names, set number and settings are unchanged. The set-win test then runs on the new scores. Without a winner the set history and both set counts are unchanged. With winner w, exactly the entry (current set, new scores, w) is appended, w gains one set and the other team's sets are unchanged |
| Engine.RemovePoint | script.js:229-238 | removePoint always pushes a snapshot, and lowers team t's score by 1 only when it is positive (else t is unchanged), so a non-negative score stays non-negative; the other team, set number and set history are unchanged |
| Engine.SwitchServe | script.js:240-246 | switchServe pushes a snapshot and negates both serving flags, so exactly one team serves after iff exactly one served before; scores, sets and set number are unchanged |
| Engine.StartNewSet | script.js:291-304 | when both scores are 0 and a set is recorded nothing changes and no snapshot is pushed; otherwise a snapshot is pushed, the set number rises by 1 and both scores become 0, sets and set history unchanged |
| Engine.ResetGame | script.js:306-320 | scores and sets become 0, the set number 1, set history and undo stack empty; names, serving flags and settings are kept |
| Engine.Undo | script.js:335-350 | with an empty stack nothing changes; otherwise the newest snapshot is popped and restores both teams, the set number and the set history; settings never change |
| Engine.InitialValid | script.js:2-25 | the initial state (A serving, set 1, all zero, empty histories) satisfies the invariant |
| Engine.SaveHistoryValid | script.js:322-333 | pushing a snapshot keeps the invariant, the 50-entry bound included |
| Engine.CheckSetWinValid | script.js:262-276 | checkSetWin keeps the invariant: a recorded win keeps sets won equal to wins in the set history and every recorded winner ahead |
| Engine.AddPointValid | script.js:212-227 | addPoint keeps the invariant |
| Engine.RemovePointValid | script.js:229-238 | removePoint keeps the invariant, in particular no negative score |
| Engine.SwitchServeValid | script.js:240-246 | switchServe keeps exactly one team serving |
| Engine.StartNewSetValid | script.js:291-304 | startNewSet keeps the invariant |
| Engine.ResetGameValid | script.js:306-320 | resetGame keeps the invariant |
| Engine.UndoValid | script.js:335-350 | undo keeps the invariant, because every stored snapshot is valid |
| Properties.ApplyValid | script.js:200-209 | every user action keeps the invariant |
| Properties.RunValid | script.js:211-350 | every sequence of actions from a valid state ends in a valid state |
| Properties.ReachableState | script.js:2-25 | in every state reachable from the initial one: no negative score, exactly one team serving, at most 50 snapshots, set number at least 1, sets won adding up to the recorded sets |
| Properties.PushingHistory | script.js:213 | every action that records a snapshot pushes exactly the snapshot of the state before it |
| Properties.UndoAfterPush | script.js:341-345 | undo right after any snapshot-pushing action restores the exact previous state, settings included; only a full stack has lost its oldest entry |
| Properties.UndoUnwindsRun | script.js:322-345 | after k snapshot-pushing actions that stay within the 50-entry bound, k undos return exactly to the starting state |
| Properties.ResetThenUndo | script.js:306-339 | after resetGame the undo stack is empty, so a following undo changes nothing |
| Properties.FullStackEvictsOldest | script.js:330-332 | a push onto a full stack keeps it at 50 entries by dropping the oldest and adding the new snapshot |
| Properties.StraightPoints | script.js:248-260 | from the initial state with default settings, up to 24 straight points for A record no set |
| Properties.TwentyFiveStraightPointsWinSet | script.js:248-276 | 25 straight points for A from 0-0 record set 1 as 25-0 for A and give A one set |
| Properties.Deuce | script.js:256-260 | from 24-24, a point for A (25-24) wins nothing; a second (26-24) wins the set |
| Properties.DecidingSetPlayedTo15 | script.js:250-252 | with default settings, 15-12 wins set 5 (the tiebreak) but not set 4 |
| Properties.ThirdSetWinsMatch | script.js:280-281 | with two sets already won, winning the third reports a match win and credits the third set |
| Properties.PointBeforeNewSetRecordsSetAgain | script.js:283-286 | at 25-0 before the next set starts, a point for B records set 1 again, as 25-1, and credits A another set |
| Scorekeeper.GameState.constructor | script.js:2-25 | the initial game state: default names and settings, A serving, set 1, all zero, empty histories; it is valid |
| Scorekeeper.GameState.SaveHistory | script.js:322-333 | updates the state in place exactly as Engine.SaveHistory and keeps the invariant |
| Scorekeeper.GameState.AddPoint | script.js:212-227 | updates the state as Engine.AddPoint, returns the set-win outcome, keeps the invariant |
| Scorekeeper.GameState.CheckSetWin | script.js:248-289 | updates the state as Engine.CheckSetWin, returns Engine.SetEvent of the old state, keeps the invariant |
| Scorekeeper.GameState.RemovePoint | script.js:229-238 | updates the state as Engine.RemovePoint and keeps the invariant |
| Scorekeeper.GameState.SwitchServe | script.js:240-246 | updates the state as Engine.SwitchServe and keeps the invariant |
| Scorekeeper.GameState.StartNewSet | script.js:291-304 | updates the state as Engine.StartNewSet and keeps the invariant |
| Scorekeeper.GameState.ResetGame | script.js:306-320 | updates the state as Engine.ResetGame and keeps the invariant |
| Scorekeeper.GameState.Undo | script.js:335-350 | updates the state as Engine.Undo, reports whether there was anything to undo, keeps the invariant |
| Scorekeeper.PointThenUndo | script.js:212-216 | on the object, addPoint followed by undo restores the whole previous state (less the oldest snapshot if the stack was full) |

## Left out

- Rendering (`updateDisplay`, `updateSetHistory`, `showWinner`, modals, confetti): presentation only. The
  confetti also uses random numbers.
- Sound (`playSound` and its helpers): a foreign audio API working with floating-point frequencies and gains.
- `setTimeout`, `alert` and `confirm`: asynchronous user-interface gating. The confirmation of `resetGame`
  is the caller's business. The delayed `startNewSet` after a set win is an explicit later call.
  `Engine.AddPointEvent` (and the method `GameState.AddPoint`, which returns it) gives the event that would
  trigger the winner dialog or the set-won alert.
- Persistence (`saveGameState`, `loadGameState`, `saveSettings`, `loadSettings`): storage I/O with JSON
  parsing and object merging.
- Event wiring, keyboard handling and the score-button dispatcher: they only call the core operations.
- Editing team names and settings through the input fields (with their `parseInt(...) || default`
  parsing). Settings are taken as given positive integers (`SettingsValid`), and names are carried through
  unchanged.
- Because snapshots hold whole team records, undo also restores a team name edited in between; the model
  keeps this, but name editing itself is not an operation here.
- Rules.SetWinnerOrderFree and the invariant `Valid` assume positive settings; the program would accept a
  negative value typed into a settings field.
