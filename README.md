# Player waiting queue and match recorder

This project models the core of a small HTTP service that keeps the waiting
queue of players at a game venue and records match results (`app.js`).

- **`PlayerQueue`** holds the single process-wide queue of player names as a
  class `QueueState` whose field `players` the four handlers change in
  place: `AddPlayer` (POST /players) appends a provided name,
  `RemovePlayer` (DELETE /players/:index) splices out one position,
  `UpdatePlayerName` (PUT /players/:index) overwrites one position with the
  trimmed new name, and `EndCurrentGame` (DELETE /endCurrentGame) drops the
  two players at the front. Each returns the status code and message the
  handler sends, and on every error path the queue is left as it was.
  The constructor `Init` is the start-up load.
  The venue (`place`) is a parameter that never affects the in-memory list,
  as in the source, where one global queue serves every venue.
- **`JsString`** is JavaScript's `String.prototype.trim`, with the
  whitespace set of the ECMAScript WhiteSpace and LineTerminator productions
  (ECMA-262, sections 12.2 and 12.3). `TrimCharacterization` is its
  reference definition: surrounding whitespace is removed, and nothing else.
- **`MatchResult`** is the record `saveMatchResult` builds: the winner and
  loser derived from the two scores, and the time shifted by the fixed
  nine-hour offset.
- **`Wrappers`** gives `Option`: `None` is an absent JSON field for a name,
  and the `NaN` that `parseInt` yields for an index. `NaN` fails every
  comparison, so it behaves like an out-of-range index.

Ties: `player1Won` uses a strict `>` (app.js:100-102), so on equal scores
player 2 is recorded as the winner and player 1 as the loser, whatever a
reader might expect. `MatchResult.TieGoesToPlayer2` states it.

## Model

| member | source | states |
|---|---|---|
| `JsString.TrimStart` | app.js:65-66 | the result is a suffix of the input; everything removed is whitespace; the result is empty or starts with a non-whitespace character |
| `JsString.TrimEnd` | app.js:65-66 | the result is a prefix of the input; everything removed is whitespace; the result is empty or ends with a non-whitespace character |
| `JsString.Trim` | app.js:65-66 | the trimmed name is no longer than the input and neither starts nor ends with whitespace |
| `JsString.TrimIsSlice` | app.js:65-66 | the trimmed name is a contiguous slice `s[i..j]` of the input with only whitespace before `i` and after `j` |
| `JsString.TrimCharacterization` | app.js:65-66 | trimming `a + m + b`, with `a` and `b` all whitespace and `m` free of whitespace at both ends, yields exactly `m` |
| `JsString.TrimEmptyIff` | app.js:65 | a new name trims to `""` exactly when every character is whitespace, so the rename is refused exactly for blank names |
| `JsString.TrimIdempotent` | app.js:66 | a stored trimmed name is unchanged by trimming it again |
| `MatchResult.WinnerLoser` | app.js:100-102 | winner and loser are the two names once each; for distinct names, player 1 is the winner iff their score is strictly higher, and the loser otherwise (ties included) |
| `MatchResult.WinnerLoserSymmetric` | app.js:100-102 | with distinct scores, swapping the two players does not change who wins and who loses |
| `MatchResult.TieGoesToPlayer2` | app.js:100-102 | on equal scores player 2 is recorded as the winner and player 1 as the loser |
| `MatchResult.NewMatchRecord` | app.js:90-118 | the saved record copies the venue, both names, both scores and the match time, uses the given id and shifted time, and its winner/loser are the two players with player 1 winning iff strictly ahead |
| `PlayerQueue.RemovedAt` | app.js:56 | `splice(i, 1)` shortens the queue by one; positions before `i` are unchanged and later ones move up by one |
| `PlayerQueue.RemovedAtMultiset` | app.js:56 | removal takes out exactly the one occurrence at `i` and keeps every other player |
| `PlayerQueue.DropTwoIsTwoRemovals` | app.js:166 | `splice(0, 2)` is the same as removing the front player twice |
| `PlayerQueue.AddThenRemoveRestores` | app.js:48-56 | removing the position just appended gives back the queue before the add |
| `PlayerQueue.QueueState.Init` | app.js:21-37 | at start-up the queue is the stored player list, or empty when there is no record or it cannot be read |
| `PlayerQueue.QueueState.AddPlayer` | app.js:42-51 | an absent or empty name answers 400 and leaves the queue; any other name, blank ones included, is appended at the back with 201 (length + 1, last element the name, earlier ones unchanged) |
| `PlayerQueue.QueueState.RemovePlayer` | app.js:53-61 | an index in `[0, length)` removes that player (`RemovedAt`) and answers 200; an index out of range or NaN answers 404 and leaves the queue |
| `PlayerQueue.QueueState.UpdatePlayerName` | app.js:63-71 | an index in range with a non-blank name sets that position to the trimmed name, keeps the length and every other position, and answers 200; otherwise 404 and the queue is unchanged |
| `PlayerQueue.QueueState.EndCurrentGame` | app.js:161-172 | with more than one player the first two are removed (the queue becomes `old[2..]`) and it answers 200; with one or none it answers 400 and the queue is unchanged |
| `PlayerQueue.AliceSession` | app.js:128-144 | on an empty queue, adding "Alice" answers 201 and lists `["Alice"]`, then removing position 0 answers 200 and lists `[]` |
| `PlayerQueue.GameCycle` | app.js:139-172 | from four waiting players: ending the game answers 200, a NaN and a past-the-end position answer 404, removing position 0 answers 200, and ending with one player left answers 400 |
| `PlayerQueue.RenameSession` | app.js:146-153 | renaming to a blank name answers 404; renaming to `"  Dee\n"` answers 200 and stores `"Dee"` |

## Left out

- Persistence: `updateQueueInDynamoDB`, the `GetCommand` at start-up and the `PutCommand` of `saveMatchResult` are calls into the database SDK whose failures are logged and swallowed; they never change the in-memory queue or a reply, so the model has no store. Whether a write is awaited or not is not modelled, nor is the persist-then-reload round trip.
- `PlayerQueue.QueueState.Init`: what the database returned is a parameter (`None` for no record or a failed read); the asynchronous load racing with early requests is not modelled.
- HTTP plumbing (Express routing, CORS, JSON body parsing, `res.status/json/send`, `app.listen`): only the status and message each handler sends are modelled. GET /players (app.js:128-130) only serialises the queue; `PlayerQueue.QueueState.List` is the accessor the session methods read, with no contract of its own.
- `parseInt` of the path parameter: handlers take the already parsed index, `None` standing for `NaN`.
- `PlayerQueue.QueueState.AddPlayer`: only string names are modelled; a truthy non-string JSON value (a number, an object) would also be appended by the source.
- `PlayerQueue.QueueState.UpdatePlayerName`: the new name is always a string; when it is absent and the index is in range, the source throws on `newName.trim()` and sends no reply, which is not modelled.
- `MatchResult.WinnerLoser`: scores are integers; JSON strings, which JavaScript's `>` compares lexicographically, are not modelled.
- `MatchResult.NewMatchRecord`: the match id (`uuidv4()`) and the current time (`new Date()`) are parameters. The venue-local time is the constant shift of 32,400,000 ms (nine hours) on the epoch value, and its `toISOString()` text is not modelled: the date is kept as milliseconds since the epoch.
- Strings are sequences of Unicode scalar values, whereas JavaScript strings are sequences of UTF-16 code units; a lone surrogate (which a JSON `\ud800` escape can produce) cannot be represented. Trimming is unaffected, since every whitespace character lies in the Basic Multilingual Plane.
- `JsString.IsWhitespace` lists the Unicode space separators by code point; it does not follow later Unicode versions.
- Interleaving of concurrent requests: Node switches between requests at every `await` (app.js:49, 67, 135, 150, 157), which the model does not capture. What the model relies on holds in the source: in each handler the check and the update of the queue run with no `await` between them (app.js:44-48, 55-56, 65-66, 165-166), so each handler changes the in-memory queue in one uninterrupted step.
- `console` logging and `dotenv` configuration.
