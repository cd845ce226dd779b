# Kotodama Battle — a Dafny model of the turn engine

Kotodama Battle is a two-player game played in the browser. Each player picks
an archetype (TOUGH: 120 hp, or MENTAL: 80 hp) and types a free-text action
each turn. A language model judges the two actions and returns a verdict
(winner, damage, narration, critical hit). The damage goes to the loser, or to
both players on a draw. The turn is logged, an illustration is requested, and
the match ends when a player's hp reaches 0.

This project models the engine of that game:

- `types.dfy` — the shared records and enumerations (`types.ts`): the six
  phases, the traits, the winner values, players, turn results and log
  entries, each enumeration with its string values and their round trip.
- `strings.dfy` — the JavaScript string behaviour the game depends on:
  `trim()` over the ECMAScript whitespace set, the decimal rendering of turn
  numbers in template literals, and `join`.
- `app_rules.dfy` — the rules `App.tsx` computes without changing state: the
  trait table, the starting players, damage routing and the hp floor, the
  game-over test, the rolling three-entry history sent to the judge, and the
  patch that attaches an illustration to the newest log entry.
- `app.dfy` — the match itself as a class `App.Match`. Every React state
  variable is a field and every handler is a method. `processTurn` runs
  across two awaits and two timers. Each stretch between them is its own
  method (`ReceiveVerdict`, `ApplyDamage`, `EnterGameOver`), except the
  stretch after the illustration call. That one is three methods taken in a
  fixed order: `AttachImage` (the log patch), `SettleImage` (the `finally`)
  and `FinishTurn` (the game-over test). A field `pending` records which step
  comes next and the values the closure carries (the verdict, the unclamped
  hp). Each method requires the phase in which the page shows its control.
  Each method states its whole new state and keeps the object invariant
  `Valid()`. The invariant relates the phase, the log, the turn in flight and
  the illustration flag.
- `gemini_service.dfy` — the client calls to the models
  (`services/geminiService.ts`): the judge's verdict with the fixed fallback
  for every failure, and the scan for the first inline image part.
- `resolve_turn_api.dfy` — the serverless endpoint (`api/resolveTurn.ts`):
  405, then 500 for a missing key, then 400 for missing fields, then the
  model's outcome mapped to 200 or 500.
- `health_bar.dfy` — the health bar's percentage and its three colour bands
  (`components/HealthBar.tsx`), decided exactly by integer
  cross-multiplication.

The models' answers, the API key and the request are parameters. Each timer
and each await boundary is one method call.

The model keeps these behaviours of the code as written:

- `resetGame` sets player 1 to TOUGH 120/120 and player 2 to MENTAL 80/80. It
  does not restore the archetypes chosen before, and it keeps the names.
- The history credits every entry that player 1 did not win to player 2's
  name, draws included.
- Damage is not range-checked, so hp stays within `maxHp` only when the
  judge's damage is not negative.
- The log entry is appended before hp changes.
- Game over is scheduled only after the illustration call settles.
- Neither `nextTurn` nor `resetGame` clears the input error.

## Model

| member | source | states |
|---|---|---|
| Types.PhaseFromName | types.ts:3-10 | a string is a phase exactly when it is one of SETUP, P1_INPUT, P2_INPUT, PROCESSING, RESULT, GAME_OVER, and it names that phase |
| Types.PhaseNamesRoundTrip | types.ts:3-10 | every phase's string value reads back as that phase, and no two phases share a string value |
| Types.TraitFromName | types.ts:12 | a trait is exactly TOUGH or MENTAL, and each reads back as itself |
| Types.WinnerFromName | types.ts:25 | a winner is exactly p1, p2 or draw, and each reads back as itself |
| Types.PlayerIdFromName | types.ts:1 | a player id is exactly p1 or p2, and each reads back as itself |
| Strings.TrimStart | App.tsx:67 | the result is the suffix of the input that starts at its first non-whitespace character; everything dropped is whitespace |
| Strings.TrimEnd | App.tsx:67 | the result is the prefix of the input that ends at its last non-whitespace character; everything dropped is whitespace |
| Strings.TrimEmptyIffBlank | App.tsx:67 | `trim()` leaves the empty string exactly when every character is whitespace (both directions) |
| Strings.TrimmedIsEmpty | App.tsx:76 | the `!input.trim()` guard is true exactly for blank input |
| Strings.NatToString | App.tsx:90 | a turn number renders as a non-empty string of decimal digits with no leading zero |
| Strings.NatToStringRoundTrip | App.tsx:90 | the rendered digits read back as the same number |
| Strings.IntToStringValue | App.tsx:90 | an integer renders as decimal digits that read back as its value, with a minus sign in front of the digits of its magnitude when it is negative |
| Strings.JoinAppend | App.tsx:91 | joining one more line adds exactly one separator before it |
| HealthBar.Percent | components/HealthBar.tsx:11 | the percentage is never negative, is 0 for hp at or below 0, and otherwise is exactly 100·hp/maxHp (not capped at 100) |
| HealthBar.ColorOfPercent | components/HealthBar.tsx:14-16 | green exactly at 50 and above, yellow exactly from 25 to below 50, red exactly below 25 |
| HealthBar.PercentBelow | components/HealthBar.tsx:11-16 | `percent < b` holds exactly when `100·hp < b·maxHp` |
| HealthBar.BandsByCrossMultiplication | components/HealthBar.tsx:11-16 | the three bands as integer tests: green iff 2·hp ≥ maxHp, yellow iff 4·hp ≥ maxHp > 2·hp, red iff 4·hp < maxHp |
| HealthBar.ColorMonotone | components/HealthBar.tsx:11-16 | at the same maxHp, lower hp never gives a healthier colour |
| GeminiService.Fallback | services/geminiService.ts:108-118 | the fallback verdict is a draw for 5 damage with the fixed narration and no critical hit, echoing both actions |
| GeminiService.ResolveTurn | services/geminiService.ts:57-119 | a result always comes back with the caller's actions and no image. When the call returned non-empty text that parsed, the result carries the parsed winner, damage, narration and crit. In every other case (the call threw, the text was empty, or the parse failed) it is the fallback |
| GeminiService.ResolveTurnDependsOnlyOnActions | services/geminiService.ts:100-118 | for a given reply, the result depends only on the two actions; names, traits and history only shape the prompt |
| GeminiService.GenerateBattleIllustration | services/geminiService.ts:121-160 | a URL comes back exactly when a part of the first candidate has inline data, and it is `data:image/png;base64,` followed by the first such part's data; otherwise null, including when the call fails or there is no candidate. Every URL returned is truthy, so `if (imageUrl)` in App.tsx accepts it |
| GeminiService.IllustrationUrlNonEmpty | services/geminiService.ts:153 | every illustration URL is non-empty, so `if (imageUrl)` accepts it |
| ResolveTurnApi.ErrorText | api/resolveTurn.ts:105 | the error body is the thrown error's message when that is non-empty, and its string rendering otherwise |
| ResolveTurnApi.Handle | api/resolveTurn.ts:38-108 | 405 "Method Not Allowed" exactly for non-POST. Then 500 "Missing GEMINI_API_KEY" when the key is missing, before the body is read. Then 400 "Bad Request" exactly when one of the six required fields is missing or empty. Then 200 exactly when the model returned non-empty text that parsed, with its winner, damage, narration and crit and the request's actions echoed. Empty text gives 500 "No response from AI" in plain text. An error thrown by the call or by `JSON.parse` gives 500 with a JSON body holding its message |
| ResolveTurnApi.EndpointAgreesWithClient | api/resolveTurn.ts:94-101 | for the same model reply, the endpoint's 200 response carries the same verdict and actions as the client-side resolver |
| AppRules.WithTrait | App.tsx:50-60 | choosing a trait sets it and sets hp and maxHp to that trait's value (TOUGH 120, MENTAL 80); id, name and colour are kept |
| AppRules.ClampHp | App.tsx:118-119 | stored hp is `max(0, hp)`: never negative, never below the unclamped value, and 0 exactly when the unclamped value is at most 0 |
| AppRules.RouteDamage | App.tsx:108-116 | each player loses the full damage exactly when they lose the turn (on a draw both do) and otherwise keeps their hp |
| AppRules.TargetOf | App.tsx:104 | the shaking bars are exactly the losers' |
| AppRules.GameOverIffKnockedOut | App.tsx:148 | testing the unclamped values for `<= 0` is the same as asking whether a stored hp is 0 |
| AppRules.DamageOnlyLowers | App.tsx:108-119 | with damage at least 0, a turn never raises hp, keeps it within 0 and maxHp, and leaves a non-loser's hp as it was |
| AppRules.CreditedName | App.tsx:90 | an entry is credited to player 1's name only when player 1 won, and to player 2's otherwise, draws included |
| AppRules.LastThreeIsSuffix | App.tsx:89 | `slice(-3)` keeps the newest three entries in order, or all of them when there are fewer |
| AppRules.HistoryLinesAt | App.tsx:89-90 | the rendered lines correspond one-to-one, in order, to the selected entries |
| AppRules.HistoryExplicit | App.tsx:89-91 | the history sent to the judge is empty with no entries, and otherwise holds the newest one to three entries, oldest first, each as `Turn n: <name> won. <narration>`, separated by `"; "` |
| AppRules.HistoryIgnoresOlder | App.tsx:89 | entries older than the newest three never affect the history |
| AppRules.AttachImageToLast | App.tsx:131-140 | only the newest entry can change, and only its image. The image is set when that entry's turn is the given turn; otherwise the log is returned unchanged. Length and every turn number are kept |
| AppRules.AppendKeepsLogNumbered | App.tsx:101 | logging the current turn, which has no entry yet, keeps turn numbers increasing and within 1 and the current turn |
| AppRules.AttachKeepsTurnsIncreasing | App.tsx:131-140 | attaching an image keeps the turn numbers increasing |
| App.Match.CurrentRequest | App.tsx:89-98 | the judge is sent both current actions and the history of the current log |
| App.Match.constructor | App.tsx:28-47 | a new match is in SETUP at turn 1 with an empty log, Player 1 and Player 2 at 100/100 (TOUGH and MENTAL), empty inputs and no error |
| App.Match.SetPlayerTrait | App.tsx:50-60 | the chosen player gets the trait and full table hp; the other player and the rest of the state are unchanged |
| App.Match.SetPlayerName | App.tsx:235 | the name field changes only that player's name |
| App.Match.SetActionText | App.tsx:276 | the text area changes only that player's pending action |
| App.Match.StartGame | App.tsx:62-64 | only the phase changes, from SETUP to P1_INPUT |
| App.Match.SubmitP1 | App.tsx:66-73 | blank input only sets the error and keeps the phase. Any other input clears the error and moves to P2_INPUT |
| App.Match.SubmitP2 | App.tsx:75-86 | blank input only sets the error and keeps the phase. Any other input clears the error, enters PROCESSING and raises the illustration flag |
| App.Match.ReceiveVerdict | App.tsx:88-104 | the judge's result (or the fallback) for the current request is appended as one entry for the current turn, with earlier entries unchanged, before any hp changes. The losers' bars start shaking |
| App.Match.ApplyDamage | App.tsx:106-122 | hp becomes the clamped routed values, the phase becomes RESULT and the shaking stops. With damage at least 0, hp only falls and stays within maxHp |
| App.Match.AttachImage | App.tsx:125-142 | the illustration call resolves once: a non-empty URL is attached to the newest entry, which is this turn's, otherwise the log is unchanged; either way the `finally` block is next, so a turn's entry gets at most one image |
| App.Match.SettleImage | App.tsx:143-145 | the illustration flag drops whether or not an image came back; the game-over test is next |
| App.Match.FinishTurn | App.tsx:147-150 | the game-over timer is scheduled exactly when an unclamped hp is at most 0, that is, when a stored hp is 0. This is exactly when the Next Turn button (App.tsx:374-377) is not offered |
| App.Match.EnterGameOver | App.tsx:149 | the timer moves the match to GAME_OVER |
| App.Match.NextTurn | App.tsx:154-159 | the turn number goes up by one, both actions are cleared and player 1 plays next; the error is left as it was |
| App.Match.ResetGame | App.tsx:161-170 | player 1 becomes TOUGH 120/120 and player 2 MENTAL 80/80 with names kept. The log is emptied, the turn is 1, the actions are cleared and the phase is SETUP. The error is left as it was |

## Left out

- Rendering (JSX, Tailwind classes, animations, `autoFocus`),
  `components/ActionCard.tsx` and `components/BattleLog.tsx`: presentation
  only.
- The 500 ms and 4000 ms timers, `useCallback` and stale closures: each
  timer and each await boundary is one method call, so interleaving is not
  modelled.
- A late illustration arriving after `resetGame` or a later turn: this is
  concurrency. The image patch still checks the turn number, and
  `AppRules.AttachImageToLast` states that a turn mismatch leaves the log
  unchanged.
- App.Match.AttachImage: uses the current `turnCount` in place of the value
  the closure captured. Nothing can change the turn between submission and
  the illustration settling, so the two are equal here.
- App.Match.ReceiveVerdict: builds the request from the current state rather
  than at submission. The state does not change in between, so the request
  is the same.
- App.Match.ApplyDamage: promises hp within maxHp and never rising only when
  the damage is at least 0. The source does not range-check the judge's
  damage.
- The Gemini SDK, model names, prompts, system instructions and response
  schemas: foreign calls. Each call's outcome is a parameter (`ModelReply`,
  `ImageReply`, `Upstream`).
- Replies that break the response schema: the model assumes a reply either
  fails to parse or yields all four verdict fields with a winner of p1, p2 or
  draw. In the source, a parsed reply missing a field passes `undefined` on
  without the fallback (services/geminiService.ts:98-107). A winner outside
  the three values is charged as a draw (App.tsx:113) and credited to
  player 2 (App.tsx:90). `Winner` has no such value.
- Numbers: hp, damage and turn numbers are JavaScript doubles, and the model
  uses unbounded integers. Damage is integral, as the response schema asks.
  Rounding, non-integral damage, and the exponent form that `${turn}` takes
  from 10^21 on are not modelled.
- Request fields of other JSON types: the endpoint tests any JSON value for
  truthiness (`!p1Name` also holds for 0, false or null). `Body` models each
  field as an absent or present string.
- A thrown value with no `message`: it is modelled by the string it renders
  as, without JavaScript's conversion rules.
- `api/illustration.ts`: a stub that always answers with no image.
- `process.env`, Vercel's request and response objects beyond status and
  body, and `console.error` logging.
- HealthBar.Percent: real arithmetic stands in for JavaScript's floating
  point. The `maxHp = 0` division is excluded. Every maxHp the game sets is
  100, 120 or 80, and `App.Match.Valid` keeps it positive.
- The illustration helper's `try/finally` when the call itself throws: the
  helper catches every error and returns null, so the `finally` always runs
  after a normal return.
