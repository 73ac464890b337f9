# cyoa-ui: story engine, Connections screen and games loader

A Dafny model of the logic inside three pieces of the choose-your-own-adventure
web front end:

- **The story engine** (`StoryEngine`). It holds five pieces of React state:
  the current game, the current narrative node, the node id, a loading flag
  and an error message. It loads a game and its first node. It follows a
  choice by fetching the node `{id}-{optionIndex}`. Its Retry handler
  reloads the game when none is held and takes option 0 otherwise; the
  Retry control that calls it is shown only when no game is held, so from
  there it always reloads. Each transition is a method of the
  class `Story.StoryEngine`. Every call to the game service is a parameter
  `Success(value)` or `Failure`. A ghost log records each call made. A ghost
  path of choices ties the node id to the options taken so far.
- **The Connections puzzle screen** (`ConnectionsGame`). This part covers:
  - the hint and solution gates, and when their buttons are visible;
  - the elapsed-seconds counter, with its one-second interval and its reset
    effect;
  - `formatTime`;
  - the random colour assignment for categories and for the selection;
  - the shake started by a wrong guess;
  - what a click on a word asks for.

  The puzzle hook's output is an input (`PuzzleView`). The counter and the
  pending shake are the fields of `Connections.ConnectionsBoard`.
  `Math.random()` results are an explicit sequence of rolls in [0, 1).
- **The games-list hook** (`useCyoaGames`). Its one request settles once,
  to a list or to an error.

Numbers are rendered by `Decimal.ToDecimal`: the digits without leading
zeros that a template literal or `toString()` gives for a non-negative
integer below 2^53 (`Number.MAX_SAFE_INTEGER + 1`). Option indices and
second counts stay far below that.
`Decimal.ParseDecimal` is its inverse, which lets the model state that ids
and clock displays lose nothing.

## Behaviour worth noting

- The hint and solution gates are each a plain disjunction of two
  thresholds (`src/components/connections-game/index.tsx:107-111`). Only
  the elapsed seconds are reset on a new game, and only once loading has
  finished. The wrong-guess count comes from the puzzle hook and is not
  reset by the screen.
- A failed choice does not bring up a Retry button. The Retry screen
  appears only while no game is held
  (`src/components/story-engine/index.tsx:78`), and a failed choice leaves
  the game in place, so its error reaches the narrative display as a prop.
  For the same reason the "take option 0" branch of `handleRetry` is never
  taken from the Retry control; `HandleRetry` models both branches and
  proves that from the Retry screen it reloads.

## Model

| member | source | states |
|---|---|---|
| Decimal.ToDecimal | src/components/story-engine/index.tsx:51 | the decimal text of a number is non-empty, has no leading zero unless the number is below ten, and is a single character exactly for numbers below ten |
| Decimal.ParseToDecimal | src/components/story-engine/index.tsx:51 | the rendering consists of digits and reads back as the number itself |
| Decimal.ToDecimalInjective | src/components/story-engine/index.tsx:51 | two different numbers never render as the same text |
| Decimal.PadStartZeros | src/components/connections-game/index.tsx:152 | `padStart(width, '0')` gives length max(width, old length), keeps the text as its suffix and fills the prefix with zeros |
| Decimal.ParsePadded | src/components/connections-game/index.tsx:152 | zero padding keeps a digit string all digits and leaves its value unchanged |
| Story.ChildId | src/components/story-engine/index.tsx:51 | the next node id strictly extends the current id, with a hyphen right after it |
| Story.ChildIdIndex | src/components/story-engine/index.tsx:51 | what follows the hyphen is digits only, without leading zeros (a lone `0` for option 0), and reads back as the chosen option index |
| Story.NodeId | src/components/story-engine/index.tsx:51-55 | the id reached by a path of choices extends the first node's id, and equals it exactly when no choice was made |
| Story.NodeIdInjective | src/components/story-engine/index.tsx:51-55 | two different paths of choices never reach the same node id |
| Story.NodeIdExtend | src/components/story-engine/index.tsx:51-55 | one more successful choice appends one `-{index}` segment to the id |
| Story.NodeIdPrefix | src/components/story-engine/index.tsx:51-55 | the id of a path is a prefix of the id of every longer path, and a strict prefix once a choice is added |
| Story.StoryEngine.constructor | src/components/story-engine/index.tsx:16-20 | the first render has no game, no narrative, an empty id, loading on, no error, and no request made |
| Story.StoryEngine.ShowsRetry | src/components/story-engine/index.tsx:78 | the Retry screen is shown when there is an error and no game |
| Story.StoryEngine.Display | src/components/story-engine/index.tsx:78-98 | the Retry screen shows the error exactly when `ShowsRetry` holds (an error and no game); otherwise the narrative display receives error, game, loading and narrative |
| Story.StoryEngine.LoadInitialGame | src/components/story-engine/index.tsx:22-41 | requests the game, then the first node of that game only if the game arrived; on success it holds both, sets the id to the first node's id and clears loading and error; a failure at either step leaves no game and no narrative, the reload message and loading off; the Retry screen shows exactly when a step failed |
| Story.StoryEngine.HandleChoiceSelect | src/components/story-engine/index.tsx:43-64 | without a narrative nothing changes and nothing is requested; otherwise it requests exactly `{id}-{index}`; on success the narrative and the id advance and the path grows by the index; on failure only the error changes, to the next-segment message; loading ends off and the game never changes; the id always spells the path of choices taken |
| Story.StoryEngine.HandleRetry | src/components/story-engine/index.tsx:66-72 | with no game it is exactly the initial load; with a game it is exactly choice 0; from the Retry screen it is always the initial load |
| Story.StoryEngine.Rerender | src/components/story-engine/index.tsx:74-76 | a render with a different `gameId` (the load callback's only dependency, line 41) re-runs the initial load for that id; a render with the same id changes nothing and requests nothing |
| Connections.IsHintEnabled | src/components/connections-game/index.tsx:107-108 | the hint gate: the hint is available and the wrong guesses or the elapsed seconds have reached their threshold |
| Connections.IsSolutionEnabled | src/components/connections-game/index.tsx:109-111 | the solution gate: the solution is available and the wrong guesses or the elapsed seconds have reached their threshold |
| Connections.IsGameComplete | src/components/connections-game/index.tsx:112 | the game is complete when no words remain |
| Connections.ShowsBoard | src/components/connections-game/index.tsx:155-218 | the board is drawn exactly when the error message is absent or empty (an empty string is falsy) and loading is over |
| Connections.HintOffered | src/components/connections-game/index.tsx:323-343 | the hint button is visible when the board is drawn, the control row is shown (not complete, one gate open) and the hint gate is open |
| Connections.SolutionOffered | src/components/connections-game/index.tsx:323-357 | the solution button is visible when the board is drawn, the control row is shown (not complete, one gate open) and the solution gate is open |
| Connections.DefaultGates | src/components/connections-game/index.tsx:50-53 | with the default props the hint opens at 2 wrong guesses or 60 seconds and the solution at 4 or 180, each also needing its availability flag |
| Connections.GatesMonotone | src/components/connections-game/index.tsx:107-111 | more wrong guesses or more elapsed seconds never close an open hint or solution gate |
| Connections.OfferedControls | src/components/connections-game/index.tsx:155-357 | a control is visible exactly when the board is shown, words remain and its own gate is open; a complete game shows neither control |
| Connections.Clock | src/components/connections-game/index.tsx:152 | minutes and a seconds value below 100 give an `m:ss` text whose fields read back as the two numbers, with no leading zero in the minutes |
| Connections.FormatTime | src/components/connections-game/index.tsx:149-153 | the display is digits, a colon and exactly two digits; the minutes have no leading zero; the fields are the whole minutes and the remaining seconds |
| Connections.FormatTimeRoundTrip | src/components/connections-game/index.tsx:149-153 | reading the display back as 60 times the minutes plus the seconds gives the original count |
| Connections.FormatTimeSingleDigits | src/components/connections-game/index.tsx:149-153 | under ten minutes and with fewer than ten remaining seconds, the display is the minute digit, a colon, a zero and the seconds digit |
| Connections.FormatTimeExamples | src/components/connections-game/index.test.tsx:292-308 | 0, 5 and 65 seconds display as `0:00`, `0:05` and `1:05` |
| Connections.RandomIndex | src/components/connections-game/index.tsx:38 | `Math.floor(roll * length)` is a valid index of a non-empty array and 0 for an empty one |
| Connections.RandomValue | src/components/connections-game/index.tsx:38 | `getRandomValue` returns a member of the array, and `undefined` exactly when the array is empty |
| Connections.RemoveAt | src/components/connections-game/index.tsx:99 | deleting the drawn colour from a pool of distinct colours leaves a distinct pool, one shorter, without that colour and with nothing new |
| Connections.AssignColors | src/components/connections-game/index.tsx:95-105 | for every sequence of rolls: with at most 8 categories every category gets a palette colour; no two categories share a colour; the selection colour is a palette colour different from every category colour, and it exists exactly when there are fewer than 8 categories |
| Connections.ClickAction | src/components/connections-game/index.tsx:264-269 | a click unselects the word exactly when it is selected and selects it otherwise |
| Connections.ConnectionsBoard.constructor | src/components/connections-game/index.tsx:77-78 | the screen mounts with zero elapsed seconds and no pending shake |
| Connections.ConnectionsBoard.TimerRunning | src/components/connections-game/index.tsx:115 | the interval exists exactly when loading is over and words remain |
| Connections.ConnectionsBoard.IsShaking | src/components/connections-game/index.tsx:268 | a word button shakes when a shake is pending and the word is selected |
| Connections.ConnectionsBoard.Tick | src/components/connections-game/index.tsx:114-122 | the interval adds one second exactly while loading is over and words remain; a control once shown stays shown |
| Connections.ConnectionsBoard.Advance | src/components/connections-game/index.tsx:117-119 | n seconds of wall-clock time add n to the counter while it runs and nothing otherwise |
| Connections.ConnectionsBoard.Rerender | src/components/connections-game/index.tsx:124-128 | after a change of game id or loading flag, the counter is zeroed once loading has finished; otherwise it is kept |
| Connections.ConnectionsBoard.HandleSubmit | src/components/connections-game/index.tsx:130-135 | a shake starts exactly when the guess failed and none is pending; a successful guess never starts one |
| Connections.ConnectionsBoard.ShakeFinished | src/components/connections-game/index.tsx:133 | the 500 ms timeout clears the pending shake |
| CyoaGames.CyoaGamesLoader.constructor | src/hooks/useCyoaGames.ts:13-18 | the hook starts loading, with no games and no error, and issues its one request |
| CyoaGames.CyoaGamesLoader.Settle | src/hooks/useCyoaGames.ts:17-28 | success stores the response and keeps the error empty; failure keeps the list empty and sets "Unable to load games"; loading ends for good and exactly one request was ever made |

## Left out

- Renders between the two awaits of `loadInitialGame` and between the request and the reply of `handleChoiceSelect`. Each transition is one atomic step from its start to its settled state.
- Overlapping in-flight choice requests. The code does not cancel them, so replies arriving out of order are a concurrency question the model does not take up.
- The service wrappers (`src/services/cyoa.ts`, `src/services/connections.ts`). Each call is an input outcome.
- The `useConnectionsGame` and `useGameIds` hooks. Their outputs (words, selection, wrong-guess count, availability flags, error, the result of `submitWords`) are the `PuzzleView` input. `selectWord`, `unselectWord`, `getHint`, `revealSolution` and `clearSelectedWords` belong to them. The model states only which one a click asks for.
- Console logging, `scrollIntoView` with its 10 ms `setTimeout`, styled-components keyframes, and the date shown with `toLocaleDateString`. These are library and browser calls.
- Real-time scheduling. A tick is an explicit event, and the restart of the interval when its effect re-runs is not timed.
- Numbers are unbounded `nat`. JavaScript numbers are doubles: from 2^53 on, integers are no longer all representable, `prev + 1` in the interval can leave the counter unchanged, and a template literal writes the shortest digits that round back to the double, padded with zeros (`${2**64}` is "18446744073709552000"), where `ToDecimal` writes the exact digits. From 10^21 on it writes exponent form (`1e+21`). Option indices and elapsed seconds never get near 2^53.
- Callbacks that capture an earlier render's state. A handler such as `handleChoiceSelect` reads the state of the render that created it; the model's methods always read the current state.
- Presentational components, including how `NarrativeDisplay` renders the props it receives.
- Connections.AssignColors: the source draws the colours inside `useMemo` keyed on the game id and the categories object, so they are drawn again only when one of those changes; the model draws once per call and does not model that memoisation.
- Connections.AssignColors: the category names are given as a sequence in `Object.keys` order. A repeated name keeps its last colour, where an object could not hold the name twice.
- CyoaGames.CyoaGamesLoader.Settle: requires a pending request, because a promise settles once. A second settlement is not modelled.
