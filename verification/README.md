# MLB extra-innings notifier, modelled in Dafny

The notifier polls the MLB schedule once a minute. It fetches the live feed of
every game on today's schedule. When a game's line score shows it past the
ninth inning, in the "Top" or "Bottom" half, it posts one alert to a Discord
webhook. A set of notified game ids (`notified_games`) keeps it from alerting
the same game twice.

This model covers the decision logic between the HTTP calls:

- the classifier `is_extra_innings`, with its defaults for absent fields;
- the game-list expression of `get_mlb_games`;
- the alert text and the status branch of `notify`;
- one cycle of the `run_agent` loop, and a finite run of cycles that share one
  notified set.

Every HTTP result is an input value:

- A schedule response is either an error or a decoded body whose `dates` list may be absent.
- Each scheduled game carries the answers the network gives, in that cycle, to
  the requests made for it: the live-feed response (an error or a body) and the
  webhook outcome (a status code with body text, or a transport error).

A cycle's effects are the requests it made, in order (feed GETs and alert
POSTs), the notified set it leaves behind, and the exception that ended it, if any.

Modules, one per file:

- `Wrappers`: `Option` and `Result`.
- `Errors`: the exceptions that end a cycle.
- `Classifier`: line score and classifier.
- `Schedule`: game records, network answers, game-list extraction.
- `Alert`: message, payload, `notify`.
- `Agent`: the loop, its specification functions, the lemmas, and the two methods.

The methods `RunCycle` and `RunAgent` are the imperative form of the loop.
`notified_games` is a local variable of `run_agent`, so the methods thread it as
a local set that they update as they go. Each method is proved equal to the
specification functions `Cycle` and `Run`, and the properties are lemmas about
those functions.

The model follows the code, including at these points where it behaves in ways
one might not expect:

- An absent or empty `dates` list raises `IndexError` at `[0]` (notifier.py:18).
  It does not give an empty game list.
- A game without `gamePk` raises `KeyError` (notifier.py:46), and the rest of
  the cycle is abandoned. The game is not skipped.
- A transport error in the webhook POST is not caught in `notify`
  (notifier.py:30). It ends the cycle, and the game is not recorded, so the
  alert is attempted again in a later cycle.
- Nothing checks at startup that the webhook URL is set (notifier.py:7). An
  unset URL makes every POST raise, which the model expresses as a transport
  error on every delivery.

## Model

| member | source | states |
|---|---|---|
| `Classifier.LineScoreOf` | notifier.py:49 | The line score is `liveData.linescore`. It is the empty record when either map is absent. |
| `Classifier.IsExtraInnings` | notifier.py:11-12 | True exactly when the inning is present and above 9, and the half-state is present and is "Top" or "Bottom" (case-sensitive). Either absence gives false. |
| `Classifier.MissingLineScoreIsNeverExtra` | notifier.py:49 | A feed without `liveData` or without `linescore` is never in extra innings. |
| `Schedule.GetGames` | notifier.py:17-19 | A failed schedule fetch fails the cycle. An absent or empty `dates` list raises (NoDates) exactly then. Otherwise the result is the first bucket's `games`, or no games when that list is absent. |
| `Alert.AlertText` | notifier.py:22-24 | The alert is the lead "⚾ Extra Innings: ", then the away name, " vs ", the home name and " has entered extra innings!", each at its stated position. Away comes first. |
| `Alert.RedSoxAtYankeesText` | notifier.py:24 | The alert for the Red Sox visiting the Yankees is "⚾ Extra Innings: Red Sox vs Yankees has entered extra innings!". |
| `Alert.AlertTextNamesTeams` | notifier.py:24 | Two equal alerts whose away names have the same length name the same away team and the same home team. |
| `Alert.Notify` | notifier.py:21-35 | The POST is made exactly when both team names exist, and its payload's `content` is the alert text. The call raises exactly when a name is absent (MissingTeamName) or the POST has a transport error (PostFailed). Every status returns normally; 204 logs success and any other status logs the code and body. |
| `Agent.Step` | notifier.py:45-53 | Handles one game. No id means no request and KeyError (MissingGamePk). Otherwise the feed is fetched first, and a failed fetch raises FeedFetchFailed. A qualifying game with a missing team name raises MissingTeamName before any POST, and a POST transport error raises PostFailed. One POST, carrying the alert text, follows exactly when the game is in extra innings, its id is not yet notified and both team names exist. The id is added exactly when that POST also returned a status, whatever the code. An exception leaves the set unchanged. |
| `Agent.ProcessGames` | notifier.py:45-53 | The walk over a cycle's games, in schedule order, stopping at the first exception. It only adds ids to the set. |
| `Agent.ProcessGamesRecordsCompleted` | notifier.py:45-53 | After the walk, the set is the initial set plus exactly the ids whose POST completed. |
| `Agent.Cycle` | notifier.py:43-58 | A failed schedule fetch, or an absent or empty `dates` list, ends the cycle with an exception, no feed requests, no POSTs and an unchanged set. A cycle never removes an id. |
| `Agent.CycleRecordsCompleted` | notifier.py:43-58 | After a cycle, the set is the initial set plus exactly the ids whose POST completed in that cycle. |
| `Agent.Run` | notifier.py:39-58 | Over consecutive cycles the set only grows, including through cycles that raise. Each cycle has one recorded outcome. |
| `Agent.RunRecordsCompleted` | notifier.py:40-58 | Over a run of cycles, including cycles that raise, the set is the initial set plus exactly the ids of every completed POST. |
| `Agent.ProcessGamesNoRepeatAlerts` | notifier.py:51-53 | Within one cycle, even with an id listed twice, no POST goes to an already-notified id, and no id is POSTed again after a completed POST for it. |
| `Agent.RunNoRepeatAlerts` | notifier.py:40-58 | Across any run of cycles, no POST goes to an already-notified id, no id is POSTed after its completed POST, and no two completed POSTs share an id. |
| `Agent.ProcessGamesAppend` | notifier.py:45-53 | Games are handled in schedule order. Walking `a + b` walks `a`, then, unless that raised, walks `b` from the set `a` left. |
| `Agent.AbortIsFinal` | notifier.py:45-58 | Once a prefix of the games has raised, the later games change nothing. |
| `Agent.FailureEndsCycle` | notifier.py:45-58 | If game k raises, the cycle keeps the set and requests of games before k, adds game k's requests, and ends with game k's exception. Game k is not recorded, and later games are not touched. |
| `Agent.FeedsInScheduleOrder` | notifier.py:45-48 | A cycle that ends normally fetched one feed per scheduled game, in schedule order, by that game's id. |
| `Agent.RegulationSendsNothing` | notifier.py:49-51 | If no fetched line score is past the ninth (a missing line score counts as inning 0), the cycle sends no POST and leaves the set unchanged, whatever the half-states are. |
| `Agent.AnyStatusRecords` | notifier.py:32-53 | For a qualifying game with both team names, any status code records the id and lets the cycle go on. 204 and other codes differ only in the logged line. |
| `Agent.RunGrows` | notifier.py:40-58 | The set after i cycles is a subset of the set after any j ≥ i cycles. |
| `Agent.RedSoxAtYankeesAlerted` | notifier.py:21-53 | Game 100 (Red Sox at Yankees) is in the top of the 11th and the webhook answers 500. One cycle makes one feed GET and one POST whose content is "⚾ Extra Innings: Red Sox vs Yankees has entered extra innings!", and it records 100. |
| `Agent.RedSoxAtYankeesNotRepeated` | notifier.py:51 | Once 100 is recorded, a cycle still showing it in extra innings fetches its feed and POSTs nothing. |
| `Agent.RunCycle` | notifier.py:43-58 | The imperative cycle, whose loop updates the set in place. Its final set, requests and outcome are exactly those of `Cycle`. |
| `Agent.RunAgent` | notifier.py:39-58 | The imperative run over a finite sequence of cycles, starting from an empty set. Its results are exactly those of `Run`, and no alert is repeated. |

## Left out

- The HTTP calls and JSON decoding (`requests.get`, `.json()`, `requests.post`). Their results are inputs. A failed GET or a body that does not decode are one case (`FeedUnavailable`, `ScheduleUnavailable`).
- The schedule GET is not recorded among a cycle's requests. Every cycle makes exactly one, before anything else.
- JSON values of the wrong type are not modelled. Examples: a `null` `currentInning` (a `TypeError` at the comparison), a `liveData` that is not an object, a `null` `dates`. Fields are either absent or of the expected type, and game ids are integers.
- The date formatting with the local clock and the URL f-strings (notifier.py:15-16, 47). They only build endpoint addresses.
- `time.sleep(60)` and the printed log lines (notifier.py:33, 35, 41, 55, 57-58). The log line of `notify` is modelled as its `Logged` result. The exception a cycle logs is modelled as the cycle's outcome.
- Run: the `while True` loop never ends. `Run` and `RunAgent` model any finite number of its cycles.
- Reading `DISCORD_WEBHOOK_URL` from the environment (notifier.py:7). This is process configuration.
