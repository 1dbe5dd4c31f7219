# Weather bot conversation and formatting model

A Dafny model of the decision logic of a Telegram weather bot (`main.py`).
The bot answers commands. `/weather`, `/hourly`, `/4day` and `/airquality`
each prompt for a location and leave a next-step continuation pending for
the chat. The next text from that chat goes to a geocoder. A miss re-prompts
and keeps the same continuation pending. A match runs the flow's formatter
once with the coordinates. The formatters turn the weather provider's
answer into messages.

Modules:

- `Wind` (`wind.dfy`): `get_wind_direction`. Degrees are whole numbers.
  Python's `round(d / 45)` is modelled as the integer nearest `d / 45`. A
  whole `d` never produces a tie, so round-half-to-even never applies. The
  match with Python holds for |d| < 2^52. Below that bound the floating-point
  quotient is within 1/128 of `d / 45`, which is always at least 1/90 away
  from a half. Above it, the rounded quotient can cross a half: for example,
  `d = 9007199254741027` gives one more than the nearest integer. The `% 8` is Python's floor modulo, which for a positive divisor
  is Dafny's `%`.
- `AirQuality` (`air_quality.dfy`): the AQI dictionary with its `'Unknown'`
  default.
- `Text` (`text.dfy`): `str.capitalize` on ASCII, as applied to descriptions.
- `Formatter` (`formatter.dfy`): the current-weather, 12-hour, 4-day and
  air-quality replies. Each takes the decoded provider answer as input.
  `Option<seq<Entry>>` stands for the forecast response with or without its
  `'list'` key. A forecast report carries its header and the entries it
  shows. It is not rendered to text. `Render` states, on its own, what one
  shown entry contributes to its block: the time, the temperature, the
  capitalized description, the wind in km/h and the compass label. The 12-hour scan
  with its `break` and the 4-day `range(0, 32, 8)` loop are methods with
  loops. Both are proved against their specification.
- `Conversation` (`conversation.dfy`): the next-step registry. The class
  `Registry` holds one pending flow per chat in a map and updates it on each
  command and each text. As in telebot, a chat with a pending continuation
  hands it every message, commands included. So the text of a command sent
  then is geocoded as a location, and only a chat with nothing pending
  reaches the command handlers. Each event therefore carries what the
  geocoder makes of its text. The pure `Step` and `Run` functions say the same for
  one update and for a sequence of updates, and the lemmas about whole
  conversations are stated over `Run`. `Dispatched(flow, coords)` stands for
  calling the flow's `fetch_*` once with coordinates. What that call sends is
  the `Formatter` function for the flow, applied to the provider's answer.
  A continuation invoked without coordinates falls into
  `prompt_for_valid_location`, through the `latitude is None` guard at the
  top of each `fetch_*`. That is a `Typed` event, or an `Issued` one whose
  chat has a flow pending.

In three places the code does less than its comments and apologies
suggest. The model follows the code:

- The comments at main.py:142 and main.py:147-148 describe a forecast that
  starts at the first upcoming entry. The 12-hour forecast shows entries
  0..3 instead (see Findings).
- On a failed request `get_weather` logs the error and returns `None`
  (main.py:93-95). The callers then raise at main.py:105, 135 and 178, and
  the apology messages are never sent. The formatters therefore take a
  decoded response, and request failures are outside the model.
- The 4-day loop indexes `weather['list'][i]` outside any `try`
  (main.py:184). It is therefore specified only for series of at least 25
  entries.

## Model

| member | source | states |
|---|---|---|
| `Wind.RoundDiv45` | main.py:50 | `round(d / 45)` for whole `d` of magnitude below 2^52 is the integer `q` nearest `d / 45`: `-45 < 2d - 90q < 45` |
| `Wind.WindIndex` | main.py:50 | the index `round(d / 45) % 8` always lies in `0..7`, negative `d` included |
| `Wind.WindDirection` | main.py:48-51 | the result is always one of the eight labels N, NE, E, SE, S, SW, W, NW |
| `Wind.RoundDiv45Sector` | main.py:50 | the rounded quotient is `q` if and only if `d` lies in `45q - 22 .. 45q + 22` |
| `Wind.WindIndexClosedForm` | main.py:50 | for every whole `d` the index equals `((d + 22) / 45) % 8` |
| `Wind.WindPeriodic` | main.py:48-51 | `d` and `d + 360` get the same label |
| `Wind.WindModulo360` | main.py:48-51 | any `d`, negative or beyond a full turn, gets the label of `d mod 360` |
| `Wind.CompassDistinct` | main.py:49 | the eight labels are pairwise distinct |
| `Wind.WindSector` | main.py:49-51 | for `0 <= d <= 360`, label `k` is returned exactly for `45k - 22 .. 45k + 22`, plus 338..360 for N (0..22 N, 23..67 NE, ...) |
| `Text.Capitalize` | main.py:152 | capitalizing keeps the length of the description |
| `Text.CapitalizeShape` | main.py:152 | the capitalized text equals the original up to case, has no lower-case first letter and no upper-case letter after it |
| `Text.CapitalizeIdempotent` | main.py:152 | capitalizing a capitalized description changes nothing |
| `AirQuality.Label` | main.py:221-228 | the word is "Unknown" exactly when the index is outside 1..5; for 1..5 it is Good, Fair, Moderate, Poor, Very Poor in scale order |
| `AirQuality.LabelInjective` | main.py:221-227 | two different levels never share a word |
| `Formatter.Render` | main.py:150-160 | a shown entry's block keeps its time and temperature, has one of the eight compass labels (that of the bearing mod 360), the wind speed times 3.6, and the description equal up to case with no lower-case first letter (main.py:185-195 renders the same block with a date) |
| `Formatter.CurrentWeather` | main.py:103-120 | a response without a series, or with an empty one, gets exactly the apology; otherwise the introduction and then the report of entry 0 |
| `Formatter.CurrentUsesFirstEntry` | main.py:105-109 | the current-weather reply depends on the first entry alone |
| `Formatter.FirstAtOrAfter` | main.py:144-147 | the scan's stopping point: none exactly when every entry is before now; otherwise the first entry at or after now, all earlier ones before now |
| `Formatter.HourlyForecast` | main.py:134-164 | no series: the fetch apology; otherwise the scan stops at the first entry at or after now (`trigger`); with no such entry only the header is sent, with one the header and entries 0..3 |
| `Formatter.HourlyRendersPastEntries` | main.py:146-149 | on a three-hourly series with now at step 5, the scan stops at entry 5, but the entries shown are all before now; the intended window is entries 5..8 |
| `Formatter.HourlyFromTrigger` | main.py:146-148 | corrected 12-hour window: empty when nothing is upcoming; otherwise up to four consecutive entries starting at the first upcoming one, the first at or after now |
| `Formatter.HourlyFromTriggerUpcoming` | main.py:142-148 | on a chronological series every entry of the corrected window is at or after now |
| `Formatter.HourlyIsThreeHourly` | main.py:148 | on a three-hourly series the four shown entries are 0, 3, 6 and 9 hours after the first |
| `Formatter.FourDayForecast` | main.py:177-198 | no series: the fetch apology; otherwise reads exactly indices 0, 8, 16, 24 in that order and sends the header with exactly those four entries (needs 25 entries) |
| `Formatter.StepOffset` | main.py:183 | on a three-hourly series, entry `i + n` is `n` steps of 3 hours after entry `i` |
| `Formatter.FourDayIsDaily` | main.py:183 | on a three-hourly series the four outlook entries are exactly 24 hours apart |
| `Formatter.AirQualityReply` | main.py:212-231 | a non-200 status, a missing or empty reading list gets exactly the apology; otherwise one report with the word for the first reading's index |
| `Conversation.Registers` | main.py:53-62 | a command registers a continuation if and only if it is not /start |
| `Conversation.RoutingIsOneToOne` | main.py:122-204 | each registering command has its own continuation, and each of the four continuations is registered by some command |
| `Conversation.Answer` | main.py:54-61 | /start, and only /start, answers with the welcome of main.py:56; no command answers with the re-prompt text. The prompts of main.py:61, 125, 168 and 203 are the other cases |
| `Conversation.AfterCommand` | main.py:59-62 | a registering command adds or overwrites the chat's entry with its own flow; /start keeps the table; every other chat's entry is unchanged |
| `Conversation.Step` | main.py:54-84 | one update: only the update's own chat can change. A formatter is dispatched exactly when the chat has a pending flow and the message's text resolved, command or not; it then uses that flow and those coordinates, and consumes the entry. A miss re-prompts and keeps the table. With nothing pending, a text is ignored, and a command gets its answer and its registration |
| `Conversation.Run` | main.py:78-84 | updates are processed in order with one effect per update; `RetryKeepsFlow`, `FlowCompletes` and `OtherChatsUnaffected` state whole conversations over it |
| `Conversation.PendingTakesPrecedence` | main.py:62 | a command from a chat with a pending flow is handled exactly as that text would be by the pending continuation |
| `Conversation.StartRegistersNothing` | main.py:54-56 | /start from a chat with nothing pending sends the welcome and leaves the pending table unchanged |
| `Conversation.FirstCommandWins` | main.py:59-84 | after a registering command, a second command is the first one's location text. It re-prompts with the first flow still pending, or dispatches the first flow and leaves the table as before |
| `Conversation.RetryKeepsFlow` | main.py:78-82 | any number of unresolvable locations: each re-prompts with "Location not found", the pending table stays as it was, no formatter runs |
| `Conversation.CommandThenMisses` | main.py:59-82 | from a chat with nothing pending, a registering command and then any misses: the command's flow stays pending, and the replies are its prompt and one re-prompt per miss |
| `Conversation.FlowCompletes` | main.py:78-84 | from a chat with nothing pending: command, then any misses, then a match. The command's flow is dispatched exactly once, last, with the matched coordinates, and the table is as before the command |
| `Conversation.OtherChatsUnaffected` | main.py:80-82 | updates from other chats never change a chat's pending flow |
| `Conversation.Registry.constructor` | main.py:15 | a new bot has no pending flows |
| `Conversation.Registry.OnCommand` | main.py:54-62 | with a flow pending, the command is that flow's location text, as in `OnText`. Otherwise it sends the command's answer, a registering command adds its chat's flow, and /start changes nothing |
| `Conversation.Registry.OnText` | main.py:78-84 | no pending flow: ignored; a miss re-prompts and keeps the flow; a match removes the flow and dispatches it once with the coordinates |

## Findings

| source | as written | input that shows it | evidently intended | confidence | as-written member | corrected member |
|---|---|---|---|---|---|---|
| main.py:146-149 | once an entry at or after now is found, the forecast shows `forecasts[0..3]` | nine three-hourly entries from time 0, with now at 15 hours: the scan stops at entry 5, and the entries shown are at 0, 3, 6 and 9 hours, all before now | show the found entry and the three after it (entries 5..8), as the comments at lines 147-148 say | high, not executed | `Formatter.HourlyForecast` (exhibited by `Formatter.HourlyRendersPastEntries`) | `Formatter.HourlyFromTrigger` (proved by `Formatter.HourlyFromTriggerUpcoming`) |

## Left out

- The Flask routes `webhook` and `set_webhook` and `app.run` are left out. They are HTTP plumbing.
- The telebot library is not part of this model: message delivery, Markdown parsing and the storage of next-step handlers. Its rule that a pending continuation takes a chat's next message before any command handler is modelled. The library keeps a list of handlers per chat. The bot never registers more than one at a time, so the model keeps one pending flow per chat.
- `Conversation.Run` processes each update completely before the next one. `telebot.TeleBot(BOT_TOKEN)` is threaded by default, so handlers run on a worker pool. Two updates from one chat could then overlap, for example a message arriving before the re-registration at main.py:82. Such interleavings are not modelled.
- Network calls are replaced by inputs. The geocoder becomes `Option<Coords>`. The forecast response becomes `Option<seq<Entry>>` (with or without `'list'`). The air-quality response becomes a status and `Option<seq<int>>`.
- `get_weather` returns `None` on a request error, and the callers then raise a `TypeError`. This path is not modelled, and no friendly failure is promised for it. The same holds for a geocoder exception other than a miss, an air-quality request that raises, and a body that is not JSON.
- Entries are complete records, so a missing key inside an entry is not modelled. In the source, `fetch_weather` (main.py:119) and `fetch_air_quality` (main.py:230) catch a `KeyError` or `IndexError` inside entry 0, such as a missing `'wind'` or an empty `'weather'` list, and send the apology. So the apology in the source covers more than the missing or empty list that `Formatter.CurrentWeather` and `Formatter.AirQualityReply` state. In the hourly and 4-day paths the same error propagates.
- `Formatter.FourDayForecast` requires at least 25 entries, because the source raises `IndexError` on shorter series.
- `Formatter.HourlyForecast` requires at least 4 entries when an upcoming entry exists, for the same reason.
- Float arithmetic is left out: rounding coordinates to 2 decimals, rounding the temperature, and rounding the km/h speed to 1 decimal. `Render` keeps the exact temperature and `speed * 3.6`.
- Time formatting (`strftime`) is left out, and timestamps stay integers. `now` is an integer. The source compares against `utcnow()`, which has a fractional part, so `now` should be its ceiling: a whole `dt` is at or after `t` exactly when it is at or after `ceil(t)`.
- `Text.Capitalize` covers ASCII letters only. Python's `str.capitalize` also maps other Unicode letters.
- Logging configuration and `.env` loading are left out. They are configuration only.
