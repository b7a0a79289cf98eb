# vMix cue-sports scoreboard — a Dafny model

The scoreboard is made of four parts:

- **The score server** (`backend/main.py`) keeps one match record per match id in memory:
  - player names, frame scores, games won, period, timer seconds, whether the timer runs, and a revision counter.
  - It offers REST endpoints that change the record: setup, score, match-score, reset, timer start/stop/set and period set.
  - It runs a one-second countdown task per running timer.
  - It pushes every change to the WebSocket subscribers of that match.
  - It also stores a graphics-settings tree per match, either replaced wholesale or written by a background-image upload, and pushes it to the same subscribers.
- **The operator's control page** (`frontend/control/app.js`):
  - builds the request bodies from what the operator typed and from the last record pushed to it;
  - keeps a WebSocket open with a capped exponential back-off.
- **The broadcast overlay page** (`frontend/overlay/app.js`):
  - picks its match from the `matchId` query parameter and renders the record;
  - animates a score that changed;
  - reconnects with the same back-off, except after a normal close.
- **The graphics designer page** (`frontend/control/gfx-designer.js`):
  - edits a settings tree by dotted setting names, applies the four presets, and saves and pushes the tree.

The model is in these files:

| file | module | models |
|---|---|---|
| `wrappers.dfy` | `Wrappers` | `Option` and `Result` |
| `text.dfy` | `Text` | the string built-ins the sources rely on: JavaScript `trim`, `split`, `includes`, `parseInt`, `Number`, and Python `str.lower` |
| `timer_format.dfy` | `TimerFormat` | `formatTimer`/`parseTimer` of the control page |
| `settings.dfy` | `Settings` | the JSON settings tree, and path lookup and write |
| `match_model.dfy` | `MatchModel` | the match record, request validation, and each endpoint's change to the record as a function |
| `server.dfy` | `Server` | the server as a class over its dictionaries: match records, live timer tasks, subscribers, graphics settings, and a log of pushed messages |
| `reconnect.dfy` | `Reconnect` | the back-off ladder 1 s, 2 s, 4 s, 8 s |
| `control_panel.dfy` | `ControlPanel` | request payloads and button guards, and the page's connection globals as a class |
| `overlay.dfy` | `Overlay` | match id, rendering, animation decisions, and the connection globals as a class |
| `gfx_designer.dfy` | `GfxDesigner` | looks and presets, the well-formedness of a tree, the slider unit, and the page as a class whose `UpdateSetting` walks the tree in a loop |

Several things are external to the model and become parameters or data:

- **Network and timing:**
  - Sockets are plain identities.
  - The sockets whose send raises are passed in as `failed`.
  - Whether creating a WebSocket throws is passed in as `createThrows`.
  - A timer firing is a method call.
- **Local storage** is the `stored` field of `GfxDesigner.Designer`.
- **Messages to the overlays** are the `pushed` (designer) and `sent` (server) logs.

Where the code and its design description disagree, the model follows the code:

- Score and games decrements clamp at 0 rather than being rejected.
- Omitted setup fields take their defaults: "Home", "Away", period 1, timer 0.
- `timer/set` always stops the timer and cancels its task.
- `setup` stops the timer in the record but leaves its task alive; the task then idles.
- A socket whose first send fails stays subscribed: the send raises before the receive loop and its cleanup, so the socket is dropped only when a later broadcast to it fails.
- A failed upload changes nothing.
- The overlay does not reconnect after a close with code 1000.

## Model

| member | source | states |
|---|---|---|
| Text.Split | frontend/control/gfx-designer.js:219 | `split` always gives at least one piece |
| Text.SplitProperties | frontend/control/gfx-designer.js:219 | no piece of a `split` contains the separator, and joining the pieces with it gives the input back |
| Text.SplitJoin | frontend/control/app.js:94 | splitting a join of separator-free pieces gives the pieces back (inverse of `Join`) |
| Text.SplitAtSeparator | frontend/control/app.js:94 | a string cut at its first separator splits into the head followed by the split of the rest |
| Text.TrimProperties | frontend/control/app.js:312-313 | `trim` returns a substring of the input with no whitespace at either end, and is empty exactly when the input is all whitespace |
| Text.TrimEmptyIff | frontend/control/app.js:312-313 | `trim` leaves nothing exactly when every character of the input is whitespace |
| Text.TrimUntouched | frontend/control/app.js:312-313 | a name without surrounding whitespace is kept as typed |
| Text.Lower | backend/main.py:55 | `lower` maps every character through the ASCII lower-case map and keeps the length |
| Text.Upper | backend/main.py:55 | upper-casing maps every character through the ASCII upper-case map and keeps the length (the partner used by `TeamCaseInsensitive`) |
| Text.ParseInt | frontend/control/app.js:314-316 | `parseInt` of a plain digit string is the number those digits denote |
| Text.DecimalValueOfDigits | frontend/control/app.js:94 | the decimal reading succeeds exactly on non-empty digit strings and then gives their value |
| Text.ToNumberOfDigits | frontend/control/app.js:94 | `Number` of a non-empty digit string is its decimal value |
| Text.DecimalString | frontend/control/app.js:84-86 | `String(n)` is a non-empty digit string without a leading zero whose value is `n`, one character long exactly when `n < 10` |
| Text.PadTwo | frontend/control/app.js:84-86 | `padStart(2, '0')` leaves strings of two or more characters alone and left-fills shorter ones with zeros to length 2 |
| Text.NotIncluded | frontend/control/gfx-designer.js:233 | a string lacking one character of `sub` in the only stretch where `sub` could start does not `includes` it |
| TimerFormat.Field | frontend/control/app.js:84-86 | one padded field shows `n` in at least two digits, exactly two below 100, with no colon |
| TimerFormat.FormatTimerFields | frontend/control/app.js:78-88 | below an hour the text is two 2-digit fields showing minutes and seconds; from an hour on, three fields showing hours, minutes below 60 and seconds |
| TimerFormat.ParseTwoFields | frontend/control/app.js:93-101 | `MM:SS` of digit fields reads as `MM * 60 + SS` |
| TimerFormat.ParseThreeFields | frontend/control/app.js:93-101 | `HH:MM:SS` of digit fields reads as `HH * 3600 + MM * 60 + SS` |
| TimerFormat.ParseFormatRoundTrip | frontend/control/app.js:78-101 | parsing a formatted timer gives the seconds back, for every non-negative number of seconds |
| Settings.LookupAppend | frontend/control/gfx-designer.js:219-223 | walking `p + q` is walking `p` and then `q` from where `p` led |
| Settings.PutDefinedIff | frontend/control/gfx-designer.js:218-224 | a write by path succeeds exactly when the walk to the last key's container ends at an object |
| Settings.PutThenLookup | frontend/control/gfx-designer.js:224 | after a successful write the path reads back the value written |
| Settings.PutKeepsOtherPaths | frontend/control/gfx-designer.js:224 | a write leaves every path that is neither above nor below the written one unchanged |
| MatchModel.NewMatch | backend/main.py:25-37 | a new record has the given id, revision 0, a stopped timer, and satisfies the record invariant |
| MatchModel.ValidateSetup | backend/main.py:39-44 | setup succeeds exactly when the defaulted names have 1..50 characters, the period is in 1..20 and the timer is ≥ 0; on success the request carries those defaulted values; on failure it names only setup fields |
| MatchModel.ValidateTeam | backend/main.py:53-56 | the team is Home exactly when its lower-case form is "home", and Away exactly when it is "away" |
| MatchModel.ValidateScore | backend/main.py:46-56 | a score body is accepted exactly when both fields are present and the team validates; then the request carries the lower-cased team and the delta |
| MatchModel.ValidateTimerSet | backend/main.py:58-60 | accepted exactly when `seconds` is present and ≥ 0, and then carries it |
| MatchModel.ValidatePeriodSet | backend/main.py:62-64 | accepted exactly when `period` is present and in 1..20, and then carries it |
| MatchModel.TeamCaseInsensitive | backend/main.py:53-56 | team validation gives the same answer for a name and its upper-cased form |
| MatchModel.Setup | backend/main.py:209-229 | setup writes names, period and timer, stops the timer, bumps `rev`, and changes no other field |
| MatchModel.ScoreUpdated | backend/main.py:231-254 | the team's score becomes `max(0, score + delta)`, the opponent's is kept, only that score and `rev` change, and `rev` goes up by one |
| MatchModel.MatchScoreUpdated | backend/main.py:278-301 | the same clamp at 0 on the team's games count; nothing else but `rev` changes |
| MatchModel.Reset | backend/main.py:256-276 | reset is the fresh record for the same id with the old names and `rev + 1` |
| MatchModel.TimerStarted | backend/main.py:303-322 | afterwards the timer runs; an already running record is returned unchanged, otherwise only the running flag and `rev` change |
| MatchModel.TimerStopped | backend/main.py:324-340 | afterwards the timer is stopped; an already stopped record is returned unchanged, otherwise only the running flag and `rev` change |
| MatchModel.TimerSet | backend/main.py:342-357 | stores the seconds, stops the timer, bumps `rev`, and changes nothing else |
| MatchModel.PeriodSet | backend/main.py:359-370 | stores the period, bumps `rev`, and changes nothing else |
| MatchModel.Tick | backend/main.py:154-183 | a stopped timer is left alone; a running one above 0 loses one second; a running one at 0 is stopped; the last two bump `rev`, and nothing else changes |
| MatchModel.CountdownStops | backend/main.py:154-183 | a countdown started at `r` seconds is stopped at 0 after `r + 1` passes of the loop, with `rev` raised by `r + 1` and names, scores and period untouched |
| MatchModel.ScoreUpThenDown | backend/main.py:231-254 | raising a score by `k ≥ 0` and lowering it by `k` restores the record except for `rev + 2` |
| MatchModel.ApplyKeepsValid | backend/main.py:209-370 | every request, accepted or rejected, and every pass of the timer loop keeps the record valid, keeps its id and never lowers `rev` |
| MatchModel.RunKeepsValid | backend/main.py:154-370 | over any sequence of requests and timer passes the record stays valid: scores, games and timer ≥ 0 and period in 1..20 |
| Server.Connected | backend/main.py:382 | accepting a socket adds it to its match's subscriber set, creating the entry, and leaves other matches alone |
| Server.Disconnected | backend/main.py:403-407 | the socket leaves its match's set; the entry is deleted exactly when it becomes empty; other matches are untouched |
| Server.AfterBroadcast | backend/main.py:134-142 | after a broadcast the failed sockets leave the match's set, an emptied entry stays, and other matches are untouched |
| Server.Delivery | backend/main.py:121-139 | a broadcast pushes one message exactly when the match has a subscriber entry, and never to a failed socket |
| Server.ConnectThenDisconnect | backend/main.py:376-407 | a socket that connects and then disconnects leaves the subscriber table as it was |
| Server.MimeOrDefault | backend/main.py:452 | the upload's content type, or `image/png` when it is absent or empty; never empty |
| Server.UploadedSettings | backend/main.py:457-473 | the upload succeeds exactly when `backgrounds` and `backgrounds.container` are objects or missing; then only `backgrounds` changes at the top level |
| Server.UploadWritesImage | backend/main.py:467-473 | after an upload each of the six image keys of `backgrounds.container` holds its new value |
| Server.UploadKeepsNeighbours | backend/main.py:457-473 | an upload keeps every other key under `backgrounds` and every other key of the container |
| Server.ScoreServer.constructor | backend/main.py:100-113 | the server starts with no matches, tasks, subscribers, settings or messages, and valid |
| Server.ScoreServer.GetOrCreateMatch | backend/main.py:144-148 | a known record is returned as it is; an unknown id gets a fresh record, which is stored; the invariant is kept |
| Server.ScoreServer.Store | backend/main.py:225 | files a valid record under its id, keeping the invariant |
| Server.ScoreServer.SendAll | backend/main.py:133-139 | the send loop delivers to exactly the subscribers that did not fail and collects exactly the failed ones |
| Server.ScoreServer.Broadcast | backend/main.py:119-142 | the subscriber table becomes `AfterBroadcast` and the message log grows by `Delivery` |
| Server.ScoreServer.PostSetup | backend/main.py:209-229 | a rejected body is answered with its errors and changes nothing; an accepted one stores `Setup` of the current record and broadcasts a "setup" event |
| Server.ScoreServer.PostScore | backend/main.py:231-254 | rejected bodies change nothing; accepted ones store `ScoreUpdated` and broadcast "score_changed" with team and delta |
| Server.ScoreServer.PostReset | backend/main.py:256-276 | stores `Reset`, cancels the match's timer task and broadcasts "reset" |
| Server.ScoreServer.PostMatchScore | backend/main.py:278-301 | rejected bodies change nothing; accepted ones store `MatchScoreUpdated` and broadcast "match_score_changed" |
| Server.ScoreServer.PostTimerStart | backend/main.py:303-322 | a stopped timer starts, gains a live task and is broadcast as "timer_started"; a running one is re-sent as "state"; in both cases the timer runs with a live task |
| Server.ScoreServer.PostTimerStop | backend/main.py:324-340 | a running timer stops, its task is cancelled and "timer_stopped" is broadcast; a stopped one changes nothing and sends nothing |
| Server.ScoreServer.PostTimerSet | backend/main.py:342-357 | rejected bodies change nothing; accepted ones store `TimerSet`, cancel the task and broadcast "state" with the seconds |
| Server.ScoreServer.PostPeriodSet | backend/main.py:359-370 | rejected bodies change nothing; accepted ones store `PeriodSet` and broadcast "period_changed" |
| Server.ScoreServer.TimerTick | backend/main.py:154-183 | one pass of a live loop stores `Tick` of the record; an idle pass sends nothing; a countdown pass broadcasts "state"; an expiry broadcasts "timer_stopped" and ends the task |
| Server.ScoreServer.Connect | backend/main.py:376-391 | the socket is subscribed and sent the current, possibly new, record; it stays subscribed even when that send fails |
| Server.ScoreServer.Disconnect | backend/main.py:403-407 | the subscriber table becomes `Disconnected` |
| Server.ScoreServer.GetGfxSettings | backend/main.py:417-422 | the stored settings of the match, or an empty object |
| Server.ScoreServer.SetGfxSettings | backend/main.py:424-440 | the match's settings are replaced by the posted object and pushed to its subscribers; failed sockets are dropped |
| Server.ScoreServer.UploadBackground | backend/main.py:442-491 | when the nested write is possible, the settings become `UploadedSettings` of the old ones with the data URL, and are pushed; otherwise nothing changes |
| Reconnect.NextDelay | frontend/control/app.js:249 | the next delay never exceeds 8 s, doubles delays up to 4 s, and is 8 s from 4 s on |
| Reconnect.NextDelayOnLadder | frontend/overlay/app.js:294 | from a delay on the 1-2-4-8 s ladder the next delay is on the ladder, is never shorter, and equals it only at the cap |
| Reconnect.DelayAfterClosedForm | frontend/control/app.js:239-251 | after `k` attempts the delay is `1000 * 2^k` ms for `k < 3` and 8000 ms from then on |
| ControlPanel.OrIfFalsy | frontend/control/app.js:314-316 | `n \|\| d` gives `n` when it is a non-zero number, and `d` for NaN or 0 |
| ControlPanel.SetupPayload | frontend/control/app.js:311-325 | every field is sent; names are the trimmed text, or "Player 1"/"Player 2" when blank, so never empty; the period is `parseInt` of its field, or 1 when that is NaN or 0, so never 0; the timer is minutes * 60 + seconds with an unreadable field as 0 |
| ControlPanel.SetupPayloadAccepted | frontend/control/app.js:311-325 | the server accepts the panel's setup exactly when both names fit in 50 characters, the period read is in 1..20 and the timer is not negative |
| ControlPanel.TimerFieldsFromDigits | frontend/control/app.js:315-317 | with digits typed in both fields the timer sent is `minutes * 60 + seconds` and is not negative |
| ControlPanel.TimerSetPayload | frontend/control/app.js:368-373 | sends the combined seconds; the server accepts it exactly when they are not negative |
| ControlPanel.ScoreMinusRequest | frontend/control/app.js:329-341 | a minus button sends a request exactly when the cached score is above 0, and it validates to that team with delta −1 |
| ControlPanel.ScorePlusRequest | frontend/control/app.js:328-342 | a plus button always sends a request that validates to that team with delta +1 |
| ControlPanel.GamesMinusRequest | frontend/control/app.js:345-351 | the games minus button sends exactly when the cached home games count is above 0, as a home −1 |
| ControlPanel.PeriodPlusRequest | frontend/control/app.js:354-357 | sends the cached period (or 1) plus one; the server accepts it exactly when that period is below 20 |
| ControlPanel.PeriodMinusRequest | frontend/control/app.js:358-363 | sends the cached period minus one exactly when it is above 1 |
| ControlPanel.GuardedMinusNeverClamps | frontend/control/app.js:329-341 | a decrement the panel sends against the current record lowers the score by exactly one |
| ControlPanel.PeriodPlusAtLastPeriodRejected | frontend/control/app.js:354-357 | at period 20 the plus button still sends a request, and the server rejects it on `period` |
| ControlPanel.Panel.constructor | frontend/control/app.js:8-13 | the page starts disconnected, with a 1 s delay, no pending reconnect and no record |
| ControlPanel.Panel.UpdateConnectionStatus | frontend/control/app.js:106-117 | the indicator follows the argument; showing connected resets the delay to 1 s |
| ControlPanel.Panel.OnOpen | frontend/control/app.js:205-209 | connected, and the delay starts again from 1 s |
| ControlPanel.Panel.OnError | frontend/control/app.js:222-225 | the indicator shows disconnected; nothing else changes |
| ControlPanel.Panel.ScheduleReconnect | frontend/control/app.js:239-251 | replaces any armed reconnect by one with the current delay, which is on the ladder |
| ControlPanel.Panel.OnClose | frontend/control/app.js:227-231 | disconnected, and a reconnect is armed with the current delay |
| ControlPanel.Panel.ConnectWebSocket | frontend/control/app.js:194-237 | nothing happens when the socket is open; when creating it throws, the page shows disconnected and arms a reconnect |
| ControlPanel.Panel.ReconnectFired | frontend/control/app.js:243-250 | a firing reconnect tries to connect and then moves the delay one step up the ladder |
| ControlPanel.Panel.UpdateUI | frontend/control/app.js:122-125 | a missing record is ignored; otherwise it becomes the cached record |
| Overlay.FirstValueIsEarliest | frontend/overlay/app.js:76-79 | the query lookup finds nothing exactly when no parameter has the key, and otherwise the value of the first one that does |
| Overlay.MatchIdOf | frontend/overlay/app.js:76-79 | the id is the `matchId` parameter when it is present and non-empty, otherwise "1"; never empty |
| Overlay.Render | frontend/overlay/app.js:127-151 | scores are shown as they are; a name is shown as sent, or "Player 1"/"Player 2" when empty; a period is shown as sent, or 1 when 0; the timer is the formatted seconds remaining |
| Overlay.RenderedTimerReadsBack | frontend/overlay/app.js:106-116 | the timer text the overlay shows reads back as the seconds remaining |
| Overlay.OverlayClient.constructor | frontend/overlay/app.js:84-86 | starts closed, with a 1 s delay, no pending reconnect and no record |
| Overlay.OverlayClient.UpdateUI | frontend/overlay/app.js:121-145 | a record replaces the cached one; a team's score animates exactly when there was a cached record whose score for that team differs |
| Overlay.OverlayClient.OnMessage | frontend/overlay/app.js:230-255 | the pushed record is shown; a "score_changed" event naming a team also animates that team |
| Overlay.OverlayClient.OnOpen | frontend/overlay/app.js:222-228 | open, the delay starts again from 1 s, and the fetched record, if any, is shown |
| Overlay.OverlayClient.ScheduleReconnect | frontend/overlay/app.js:278-296 | arms a reconnect with the current delay, replacing any armed one |
| Overlay.OverlayClient.OnClose | frontend/overlay/app.js:261-268 | a reconnect is armed exactly when the close code is not 1000 |
| Overlay.OverlayClient.ConnectWebSocket | frontend/overlay/app.js:211-276 | nothing happens when the socket is open; a reconnect is armed when creating it throws |
| Overlay.OverlayClient.ReconnectFired | frontend/overlay/app.js:290-295 | a firing reconnect tries to connect and then moves the delay one step up the ladder |
| Overlay.FirstRecordNeverAnimates | frontend/overlay/app.js:124-133 | the first record a fresh overlay receives animates neither score |
| GfxDesigner.Presets | frontend/control/gfx-designer.js:299-388 | there are exactly the presets default, bold, elegant and minimal, and default is the default look |
| GfxDesigner.PresetColors | frontend/control/gfx-designer.js:7-15 | the seven colours of the default look and of the bold, elegant and minimal presets (lines 302-310, 331-339, 360-368), leaf by leaf |
| GfxDesigner.HexColorIgnoresCase | frontend/control/gfx-designer.js:211 | the colour pattern is case-insensitive: upper- and lower-casing the text does not change acceptance |
| GfxDesigner.LookColors | frontend/control/gfx-designer.js:7-35 | a look built from hexadecimal colours has a hexadecimal colour at every colour setting |
| GfxDesigner.LookRanges | frontend/control/gfx-designer.js:7-35 | a look has a number at every slider setting |
| GfxDesigner.LookWellFormed | frontend/control/gfx-designer.js:7-35 | a look built from hexadecimal colours suits every input of the page |
| GfxDesigner.PlainPalettesAreHex | frontend/control/gfx-designer.js:7-15 | the default, bold and minimal colours are all `#rrggbb` |
| GfxDesigner.ElegantPaletteIsHex | frontend/control/gfx-designer.js:331-339 | the elegant colours are all `#rrggbb` |
| GfxDesigner.PresetsWellFormed | frontend/control/gfx-designer.js:299-388 | the default look and every preset suit every input of the page |
| GfxDesigner.EditablePathsDistinct | frontend/control/gfx-designer.js:242-268 | every editable setting sits two keys deep, and no two inputs share a setting |
| GfxDesigner.TwoKeyPathsUnrelated | frontend/control/gfx-designer.js:218-224 | distinct two-key settings are never prefixes of one another |
| GfxDesigner.WriteEditable | frontend/control/gfx-designer.js:218-224 | on a well-formed tree, writing an editable setting succeeds, reads back, and leaves every other editable setting as it was |
| GfxDesigner.ColorEditKeepsWellFormed | frontend/control/gfx-designer.js:209-214 | accepted colour text written to a colour setting keeps the tree well formed |
| GfxDesigner.RangeEditKeepsWellFormed | frontend/control/gfx-designer.js:231-234 | a number written to a slider setting keeps the tree well formed |
| GfxDesigner.EditableKeysUndotted | frontend/control/gfx-designer.js:242-268 | no key of an editable setting contains a dot |
| GfxDesigner.DottedSplits | frontend/control/gfx-designer.js:219 | the dotted name of a two-key setting whose keys contain no dot splits back into its keys |
| GfxDesigner.EditableWriteLands | frontend/control/gfx-designer.js:218-224 | an editable setting addressed by its dotted name is reached by the editor's walk, and the write lands on it |
| GfxDesigner.RangeSuffix | frontend/control/gfx-designer.js:233 | the slider unit as written is "px" or "%" |
| GfxDesigner.RangeSuffixAgainstLoad | frontend/control/gfx-designer.js:133-176 | the unit as written agrees with the unit shown when a look is loaded for exactly the seven sliders other than the two layout spacings |
| GfxDesigner.IntendedRangeSuffix | frontend/control/gfx-designer.js:233 | the corrected unit is "px" or "%", and "px" wherever the unit as written is "px" |
| GfxDesigner.SpacingShownAsPercent | frontend/control/gfx-designer.js:171-173 | while the two layout spacing sliders move, the unit as written is "%", although loading a look shows "px" for them |
| GfxDesigner.OpacityIsPercent | frontend/control/gfx-designer.js:164 | the shadow-opacity slider is labelled "%", both as written and by the corrected unit |
| GfxDesigner.SizeSlidersArePixels | frontend/control/gfx-designer.js:233 | the four sliders whose names contain "Size" are labelled "px" as written |
| GfxDesigner.OtherSlidersArePixels | frontend/control/gfx-designer.js:233 | the blur and letter-spacing sliders are labelled "px" as written, and the layout spacings "px" by the corrected unit |
| GfxDesigner.IntendedSuffixMatchesLoad | frontend/control/gfx-designer.js:133-176 | for every slider the corrected unit agrees with the unit shown when a look is loaded |
| GfxDesigner.Designer.constructor | frontend/control/gfx-designer.js:37 | the page starts from the default look, with nothing stored or pushed |
| GfxDesigner.Designer.ApplyToOverlay | frontend/control/gfx-designer.js:178-198 | the tree is stored and appended to what the overlays were sent |
| GfxDesigner.WellFormedIsUiReady | frontend/control/gfx-designer.js:133-176 | a tree on which every input finds its setting has all four groups, so `applySettingsToUI` does not throw on it |
| GfxDesigner.Designer.LoadSettings | frontend/control/gfx-designer.js:101-116 | nothing saved: the default look is stored and pushed; a saved tree that parses and has its four groups becomes current and is pushed; one that does not parse, or on which `applySettingsToUI` throws, resets to the default look without pushing |
| GfxDesigner.Designer.UpdateSetting | frontend/control/gfx-designer.js:218-227 | the walk throws exactly when it meets a missing key or null; it writes exactly when the container is an object, and the new tree is `Put` of the old; otherwise the tree is unchanged; unless it threw, the tree is saved and pushed |
| GfxDesigner.Designer.OnColorText | frontend/control/gfx-designer.js:209-215 | text that is not `#rrggbb` changes nothing; accepted text goes through `updateSetting` with its full effect (outcome, `Put` of the old tree or no change, save and push); on a colour setting of a well-formed tree it is written, reads back, and keeps the tree well formed |
| GfxDesigner.Designer.OnRangeInput | frontend/control/gfx-designer.js:230-236 | the unit shown is the unit as written; `parseInt` of the text (NaN as null) goes through `updateSetting` with its full effect (outcome, `Put` of the old tree or no change, save and push); digit text on a slider setting of a well-formed tree is written, reads back, and keeps the tree well formed |
| GfxDesigner.Designer.ApplyPreset | frontend/control/gfx-designer.js:390-396 | a known preset becomes current and is stored and pushed; an unknown name changes nothing |
| GfxDesigner.Designer.ResetToDefaults | frontend/control/gfx-designer.js:286-292 | when confirmed, the default look becomes current and is stored and pushed; otherwise nothing changes |
| GfxDesigner.Designer.ApplyClicked | frontend/control/gfx-designer.js:282-285 | the current tree is stored and pushed unchanged |

## Left out

- Concurrency is not modelled: the asyncio tasks, the state lock and the interleaving of endpoints with timer loops. Each endpoint and each pass of a timer loop is one atomic method, and a timer task is represented only by membership of its match id in `timerTasks`.
- The one-second sleep and the `ts` millisecond timestamp of every event are clock readings and are left out of the messages.
- JSON serialisation, pydantic coercion (for example a string "5" accepted as an int), HTTP status codes and the response envelopes `{"status": "ok", ...}` are not modelled. A response is the record or the list of failed fields.
- The timer loop's exit when its match is missing is not modelled, because no code path removes a match.
- A set changed while it is iterated (a Python `RuntimeError` possible in the graphics-settings broadcasts) is not modelled, because it needs concurrent sockets.
- The `hasattr` checks in `setup` are not modelled: the record always has those fields, so the branches are dead.
- Base64 encoding of the uploaded bytes is not modelled: the encoded text is a parameter.
- The static pages, CORS, the root endpoint and start-up logging are not part of this model.
- Text.Lower: only ASCII letters are mapped, whereas Python's `str.lower` also lowers other scripts. Team names outside ASCII are not compared faithfully.
- Text.ParseInt: its contract covers plain digit strings only. Signs, leading whitespace and trailing junk are computed by its body but not stated in the contract.
- Numbers are integers. JavaScript floating point, fractional seconds, `Infinity`, and the exact output of `Number` on exotic input (hex, exponents) are not modelled; `NaN` is `None` or `null`.
- The DOM is not modelled: element text, CSS classes, the animation timing, the overlay's fade-in, translations, the visibility toggles and the collapsible sections. Only the decision to animate is modelled.
- The control page's `fetchState` and `apiCall` fetches, and the overlay's periodic HTTP poll and tab-visibility reload, are network calls; their results are parameters where they matter (`OverlayClient.OnOpen`).
- The random jitter the overlay adds to each reconnect delay (`Math.random`, frontend/overlay/app.js:284-285) is not modelled; only the base delay is tracked.
- The overlay's own `formatTimer` (frontend/overlay/app.js:106-116) is the same function as the control page's and is modelled once, in `TimerFormat`.
- GfxDesigner.Designer.LoadSettings: parsing local storage is a parameter (`None`, `Some(None)` when it does not parse, or the parsed tree). Whether `applySettingsToUI` throws is decided by `UiReady` (each of the four groups present and not null); the form fields it fills before throwing are DOM and are not modelled.
- GfxDesigner.Designer.UpdateSetting: the walk treats arrays, strings and numbers as having no keys, so `Step` gives `undefined`. JavaScript would also find array indices, `length` and prototype properties.
- GfxDesigner.Designer.ApplyPreset: inherited keys such as `constructor`, which the object lookup in the source would also find, are not modelled.
- The `postMessage` to the preview frame, the `gfxSettingsChanged` window event and the separate `saveSettings` write are folded into `stored`/`pushed`: one save and one push per change.
- Settings export and import (file download and upload) and the confirmation and alert dialogs are not modelled. The confirmation answer is a parameter of `ResetToDefaults`.
- `applySettingsToUI` is modelled only through when it throws (`UiReady`) and the units it writes beside the sliders (`LoadedUnits`, frontend/control/gfx-designer.js:153-175).
- Presets: the function's own contract names the four presets and fixes the default one; the colours of the other three are pinned by `PresetColors`, and their font and size values only by the definition.

## Findings

| source | as written | input that shows it | evidently intended | confidence | as-written member | corrected member |
|---|---|---|---|---|---|---|
| frontend/control/gfx-designer.js:233 | the unit beside a moving slider is "px" only when its setting name includes "Size", "Spacing", "Blur" or "letter", compared case-sensitively | moving the `layout.spacingScores` or `layout.spacingInfo` slider: the name contains "spacing" in lower case only, so it is labelled "%", while loading a look labels the same value "px" (lines 171 and 173) | the layout spacings are pixels whichever way the slider is moved, so the unit agrees with the one shown on load | not executed | GfxDesigner.SpacingShownAsPercent | GfxDesigner.IntendedSuffixMatchesLoad |
