# otail core, modelled in Dafny

otail is a terminal viewer for OpenTelemetry data. It receives frames over a
websocket and classifies each one as logs, metrics, traces or unknown. It shows
the pretty-printed JSON in a scrolling viewport. A pause mode freezes the stream
and gives a cursor that can be moved line by line. The cursor's message can be
copied to the clipboard. A small HTTP server writes telemetry as Server-Sent
Events.

This project models the sequential core of that program:

- the message store, in both versions:
  - `internal/ui/store.go`, three per-kind lists (`UiStore`);
  - `internal/app/store.go`, a flat line list with entry ranges (`AppStore`);
- the cursor (`Cursors`);
- the pause/cursor/viewport state machine:
  - `internal/ui/model.go` and its earlier copy `internal/ui/root.go`. The state machine is stated once as functions (`Engine`, `EngineLemmas`). The two classes `UiModel.Model` and `UiRoot.RootModel` are each proved to update their fields exactly as those functions say. So the two copies behave alike on every event;
  - the oldest handler, `internal/app/root.go` (`AppRoot`);
- the line-to-message index shared by those (`LineIndex`);
- the two JSON key highlighters:
  - `internal/ui/highlight.go`, which returns styled segments (`Highlight`). `internal/ui/root.go:44-59` holds the same function again as `highlightJsonKeys`, called by `RootModel` at root.go:339-342; `Highlight.HighlightJSONKeys` models both copies;
  - `internal/ui/common/prettyjson.go` (`PrettyJSON`);
- `newItem` (`AppItem`);
- the classifier `telemetry.Parse` (`Telemetry`);
- the reconnect back-off (`Backoff`);
- the endpoint check of both `Run` functions (`Endpoint`);
- the Server-Sent Events writer `Event.MarshalTo` of `cmd/handler.go` (`ServerSentEvents`).

`ServerSentEvents` also has a reader of its own, `Read`. It takes the list of writes `MarshalTo` makes, one line per write, and picks each line's field by its first letter. It is proved to read back every event the writer writes (`ReadBack`). It is not the stream parser of section 9.2.5 of the WHATWG HTML Living Standard. `StreamLines` connects the two views: when the event name, retry and comment hold no line break, the bytes written split at line breaks into exactly the writes. `EventWithLineBreakBreaksStream` shows the premise is needed.

State the source changes in place is modelled by classes with `modifies` clauses:

- `MessageStore`, `Cursor`, `Model`, `RootModel`, `Store`, `AppModel`;
- the SSE `Writer`.

Pure code is modelled by functions:

- the classifier, the back-off, both highlighters' matching, the item constructor, the endpoint check.

Loops keep their loops, with invariants:

- `TotalLines`, `cursorMsgIndex`, the two loops of `syncViewport`;
- `messageForLine`, `render`;
- the loop of `highlightJSONKeys`;
- the data loop of `MarshalTo`.

Things the model takes as parameters:

- Styles are tags (`Styles.Style`). Text is kept apart from its styling, so "styling ignored" statements are about `Styles.Texts`.
- Where the rendered style text itself matters (`HighlightKeys`, whose output is split into lines again), the lipgloss renderer is a parameter `render: string -> string`.
- The OpenTelemetry decoders, their re-marshalling and the JSON indenter are the fields of a `Telemetry.Codec` value.
- The random draw of the back-off is a parameter `r`.
- `url.Parse` is a parameter.
- The viewport's own reaction to an event is a parameter `scroll`.
- The `io.Writer` is a `Writer` object whose `failAt` says which call fails.

## Model

| member | source | states |
|---|---|---|
| Telemetry.KindName | internal/telemetry/parser.go:24-35 | "logs", "metrics" and "traces" name exactly their kinds; every other value, in-range or not, is "unknown" (each direction proved) |
| Telemetry.Pretty | internal/telemetry/parser.go:48-57 | the pretty-printing fallback never yields an empty line list |
| Telemetry.Parse | internal/telemetry/parser.go:45-100 | never fails and always has at least one line; logs is chosen iff the logs decoder accepts (decode succeeds and resource count > 0); metrics iff logs rejects and metrics accepts; traces iff both earlier reject and traces accepts; unknown iff all three reject |
| Telemetry.LogsWinWhateverOthersSay | internal/telemetry/parser.go:69-75 | once the logs decoder accepts, the metrics and traces decoders cannot change the result, which is of kind logs |
| Telemetry.RemarshalFailureUsesRawFrame | internal/telemetry/parser.go:59-66 | an accepted frame whose re-marshalling fails is shown from the raw frame's pretty form |
| Telemetry.NonJsonIsOneRawLine | internal/telemetry/parser.go:48-57 | a frame no decoder accepts and that is not JSON is the unknown message holding the frame itself as its only line |
| Telemetry.PrettyJoinsBack | internal/telemetry/parser.go:53 | the lines of indented JSON join back into the indented text, and none holds a line break |
| Backoff.Pow2 | internal/transport/backoff.go:20 | the power of two the shift multiplies by is at least 1 |
| Backoff.Wrap64 | internal/transport/backoff.go:20 | the two's-complement wrap-around of the 64-bit shift leaves a product that fits in an int64 unchanged |
| Backoff.Cap | internal/transport/backoff.go:17-23 | the clamped cap `d`, a negative attempt read as 0, never above `max` |
| Backoff.BackoffDelay | internal/transport/backoff.go:16-27 | the delay lies in `[0, d)`; the call panics exactly when `d` is not positive |
| Backoff.NegativeAttemptIsZero | internal/transport/backoff.go:17-19 | a negative attempt behaves exactly as attempt 0 |
| Backoff.CapWhenShiftFits | internal/transport/backoff.go:20-25 | while `base * 2^attempt` fits in an int64, the cap is `min(base * 2^attempt, max)`, positive for positive base and max |
| Backoff.MulGrows | internal/transport/backoff.go:20 | multiplying by at least one does not shrink a natural number |
| Backoff.DelayBelowBothBounds | internal/transport/backoff.go:20-26 | where the shift fits and base and max are positive, the delay is below both `max` and `base * 2^attempt` |
| Backoff.Pow2Of35 | internal/transport/backoff.go:20 | the value of 2^35 used by the overflow counterexample |
| Backoff.DefaultBackoffPanicsAtAttempt35 | internal/transport/backoff.go:20-25 | with the transport's default base and max, attempt 35 wraps the cap negative and the draw panics for every random value |
| Backoff.IntendedDelay | internal/transport/backoff.go:16-27 | the corrected delay is non-negative and below the unwrapped cap whenever that cap is positive |
| Backoff.IntendedNeverPanics | internal/transport/backoff.go:16-27 | with positive base and max the corrected cap is positive for every attempt and the delay stays below `max` and below `base * 2^attempt` |
| Backoff.AgreesWhileShiftFits | internal/transport/backoff.go:20-26 | where the shift fits, the code and the corrected delay agree |
| Styles.TextsConcat | internal/ui/highlight.go:22-37 | the text of concatenated segments is the concatenation of their texts |
| Text.Split | internal/app/item.go:19 | `strings.Split` by one character: at least one piece and no piece holding the separator |
| Text.Join | internal/app/store.go:36 | `strings.Join`: no parts give the empty string, and the first part opens the result |
| Text.ConcatAppend | internal/app/store.go:28-33 | concatenating one more piece appends it |
| Text.ConcatSplitAt | internal/app/store.go:28-33 | concatenation distributes over appending lists |
| Text.JoinSplit | internal/app/item.go:19 | joining the pieces that `Split` produced restores the string |
| Text.SplitNoSeparator | internal/telemetry/parser.go:56 | a string without the separator splits into itself alone |
| Text.SplitCons | internal/app/item.go:19 | splitting `x + sep + t`, with `x` free of the separator, peels off `x` |
| Text.JoinSnoc | internal/app/store.go:35-37 | joining one more piece adds the separator and that piece at the end |
| Text.SplitJoin | internal/app/item.go:19 | splitting a join of separator-free pieces gives the pieces back |
| Text.SplitCount | internal/app/item.go:19 | `Split` yields one more piece than there are separators |
| Text.TerminatedConcat | cmd/handler.go:57-62 | terminating every piece distributes over appending lists |
| Text.JoinAsTerminated | cmd/handler.go:57-62 | a join is all pieces but the last each terminated, then the last |
| Text.SplitTerminated | cmd/handler.go:48-86 | separator-free pieces, each followed by the separator, split back into the pieces and then an empty remainder |
| Text.DigitChar | cmd/handler.go:54 | a decimal digit character |
| Text.NatDecimal | cmd/handler.go:54 | the `%d` digits of a natural number: non-empty and all digits |
| Text.DigitCharValue | cmd/handler.go:54 | a digit character has its digit value |
| Text.DecimalRoundTrip | cmd/handler.go:54 | reading back the digits written for `n` gives `n` |
| LineIndex.OwnerFrom | internal/ui/model.go:59-72 | the resumed search of `cursorMsgIndex` returns an index of the list, or 0 for an empty one |
| LineIndex.OwnerIndex | internal/ui/model.go:59-72 | `cursorMsgIndex` is an index of the list, or 0 for an empty one |
| LineIndex.CursorMessage | internal/ui/model.go:256-258 | the cursor's message is present iff the line is a line of the list, and is then the owner |
| LineIndex.LineCountEmpty | internal/ui/store.go:34-41 | an empty list has no lines |
| LineIndex.LineCountAppend | internal/ui/store.go:34-41 | appending a message adds its line count to the total |
| LineIndex.StartNext | internal/ui/model.go:59-72 | message `i` occupies the lines from its start up to the next message's start |
| LineIndex.StartAll | internal/ui/model.go:241-268 | the start after the last message is the line total |
| LineIndex.StartMonotone | internal/ui/model.go:59-72 | later messages start no earlier |
| LineIndex.FlattenLength | internal/ui/store.go:34-41 | the flattened lines number exactly `TotalLines` |
| LineIndex.FlattenAppend | internal/ui/model.go:241-268 | the flattened lines of a list with one more message end with that message's lines |
| LineIndex.FlattenAt | internal/ui/model.go:241-268 | line `j` of message `i` is global line `Start(i) + j` |
| LineIndex.OwnerFromIsFirst | internal/ui/model.go:62-67 | the search picks the first message from `k` on whose range reaches past `line` |
| LineIndex.OwnerFromPastEnd | internal/ui/model.go:68-71 | when no message reaches past `line`, the search settles on the last message, or 0 for an empty list |
| LineIndex.OwnerIndexOfContained | internal/ui/model.go:59-72 | a message `i` with `Start(i) <= line < Start(i+1)` is the one chosen |
| LineIndex.OwnerIndexContains | internal/ui/model.go:59-72 | a line of the list lies in the range of the message chosen |
| LineIndex.FirstReaching | internal/ui/model.go:62-67 | the first message among the first `n` whose range reaches past `line` exists when one does |
| LineIndex.OwnerIndexNegative | internal/ui/model.go:59-72 | lines before the first line belong to the first message |
| LineIndex.OwnerIndexPastEnd | internal/ui/model.go:68-71 | lines past the end belong to the last message |
| LineIndex.CursorMessageHoldsLine | internal/ui/model.go:256-258 | the cursor's message holds the cursor's line, at the position `line - Start` |
| UiStore.SelectDefaultsToLogs | internal/ui/store.go:23-32 | every kind but metrics and traces, the unknown kind in particular, reads the logs list |
| UiStore.RouteAppends | internal/ui/store.go:12-21 | `Add(m)` appends `m` to the end of the list its kind reads and leaves the other two lists alone |
| UiStore.RouteLineCounts | internal/ui/store.go:12-21 | after `Add(m)` the line total of `m`'s list grows by `m`'s lines and the others keep theirs |
| UiStore.RouteKeepsEarlier | internal/ui/store.go:15-19 | every message present before `Add` keeps its position and value |
| UiStore.Select | internal/ui/store.go:23-32 | the list read is the one the kind's bucket names: metrics, traces, or logs for every other kind |
| UiStore.Route | internal/ui/store.go:12-21 | every list keeps what it held as a prefix, and exactly one message is added over the three lists |
| UiStore.MessageStore.Messages | internal/ui/store.go:23-32 | the field read is the one the kind's bucket names: metrics, traces, or logs for every other kind |
| UiStore.MessageStore.constructor | internal/ui/store.go:6-10 | the zero value: three empty lists |
| UiStore.MessageStore.Add | internal/ui/store.go:12-21 | the lists afterwards are the routing of `m` into the lists before |
| UiStore.MessageStore.TotalLines | internal/ui/store.go:34-41 | the loop's sum is the line count of the list the kind reads |
| Cursors.Cursor.constructor | internal/ui/cursor.go:6-9 | the zero value: line 0, no message |
| Cursors.Cursor.Reset | internal/ui/cursor.go:11-14 | afterwards line is 0 and there is no message, whatever the state before, so resetting is idempotent |
| Viewports.Clamp | internal/ui/model.go:79 | the clamped offset lies in the bounds and equals the request when it already does |
| Viewports.SetYOffset | internal/ui/model.go:79 | the offset set lies in `[0, max(0, lines - height)]`, and nothing else changes |
| Viewports.VisibleLineCount | internal/ui/model.go:100 | no more lines are visible than there are |
| Viewports.GotoBottom | internal/ui/model.go:173 | afterwards the viewport is at the bottom |
| Viewports.SetContent | internal/ui/model.go:270 | the content is set, the size kept, and the line count is that of the content's text |
| Engine.Spaces | internal/ui/model.go:251 | `strings.Repeat(" ", n)` has length `n` |
| Engine.Pad | internal/ui/model.go:249-253 | a line shorter than the width is padded to the width, a longer one kept, and the line is always a prefix |
| Engine.Initial | internal/ui/model.go:41-49 | the new model has no lines and shows the kind given; it is neither ready nor paused, has no cursor message and no error, and its viewport is empty |
| Engine.ActiveMessages | internal/ui/model.go:51-53 | the list shown is the one the kind's bucket names: metrics, traces, or logs for every other kind |
| Engine.TotalLines | internal/ui/model.go:55-57 | the line total is the number of lines of the list shown, flattened |
| Engine.Navigate | internal/ui/model.go:145-154 | moving the cursor keeps the lists, the kind, the pause state, readiness, the error and the viewport's size; the move itself is `EngineLemmas.NavigateUp`/`NavigateDown` |
| Engine.Resize | internal/ui/model.go:160-168 | afterwards the model is ready and the viewport is `width` wide and `height - 5` high; a ready model keeps its offset and content, the first size gives an empty viewport at offset 0; nothing else changes |
| Engine.LineSegmentsShape | internal/ui/model.go:247-261 | styling ignored, a line reads as itself, padded exactly when highlighted or the cursor line; the cursor line is in the cursor style with its keys in the cursor key style, another highlighted line in the message highlight style with its keys in the message key style, any other line one unstyled segment |
| Engine.Newline | internal/ui/model.go:264-266 | one unstyled `"\n"` is written, unless the line is the last line of the last message, and then nothing |
| Engine.LineInOwner | internal/ui/model.go:245 | line `j` of message `i` lies in the line range of the cursor's message exactly when `i` is the index `cursorMsgIndex` returns |
| Engine.LineBreak | internal/ui/model.go:264 | in global line numbers, the break test after line `j` of message `i` passes exactly unless it is the last line of a non-empty last message |
| Engine.RenderLineDrawn | internal/ui/model.go:246-266 | line `j` of message `i`, written with the cursor's message as highlight, is global line `Start(i) + j` as `Drawn` describes it |
| Engine.RenderLinesDrawn | internal/ui/model.go:246-267 | the inner loop's first `n` lines of message `i` are global lines `Start(i)` up to `Start(i) + n`, each as `Drawn` describes it |
| Engine.RenderMessagesDrawn | internal/ui/model.go:244-268 | the outer loop's first `k` messages are global lines 0 up to `Start(k)`, each as `Drawn` describes it |
| Engine.RenderByLine | internal/ui/model.go:241-268 | what `syncViewport` writes is every line of the list, in order, each as `Drawn` describes it |
| Engine.Sync | internal/ui/model.go:234-271 | `syncViewport` changes only the cursor line, the cursor's message and the viewport |
| Engine.EnsureCursorVisible | internal/ui/model.go:74-83 | only the viewport offset may move, and nothing changes while live |
| Engine.CursorUp | internal/ui/model.go:85-93 | only the cursor line and the viewport change; at line 0 nothing changes, otherwise the line drops by one |
| Engine.CursorDown | internal/ui/model.go:95-104 | only the cursor line and the viewport change; on the last line or past it nothing changes, otherwise the line grows by one |
| Engine.TogglePause | internal/ui/model.go:131-138 | the flag flips and only it and the cursor line change; resuming keeps the line, pausing leaves it at 0 or more |
| Engine.Receive | internal/ui/model.go:170-176 | while paused nothing changes; while live the message is routed into the lists; pause state, active kind and error are kept |
| Engine.Follow | internal/ui/model.go:188-203 | only the viewport and the cursor line change; the viewport is the library's reaction to the event; live the line is kept, paused it is at least 0 |
| Engine.Post | internal/ui/model.go:188-206 | the end of a step keeps the lists, the active kind, the pause state, readiness and the error |
| Engine.KeyStep | internal/ui/model.go:117-158 | a key quits exactly when it is the quit key, never asks for a frame, copies only for yank while paused, and keeps readiness and the error |
| Engine.Update | internal/ui/model.go:113-209 | a step quits exactly on the quit key and on a transport error, asks for the next frame exactly after a message, and only a key changes the active kind or the pause state |
| EngineLemmas.CursorUpMovesOneLine | internal/ui/model.go:85-93 | nothing changes at line 0; otherwise the line drops by exactly 1 and only the line and the offset change; the offset changes only when the new line is within 3 of the top edge and the viewport is not at the top, and then, provided the offset is at most `MaxYOffset` (a resize can leave it above), it drops by exactly 1 |
| EngineLemmas.CursorDownMovesOneLine | internal/ui/model.go:95-104 | nothing changes on the last line or past it; otherwise the line grows by exactly 1 and only the line and the offset change; the offset changes only when the new line reaches within 3 of the visible bottom and the viewport is not at the bottom, and then, provided the offset is not negative, it grows by exactly 1 |
| EngineLemmas.CursorMovesStayInRange | internal/ui/model.go:85-104 | from a line of the list both moves stay on the list |
| EngineLemmas.ArrowNavigates | internal/ui/model.go:145-154 | an arrow key while paused moves the cursor, makes it visible and re-renders, with no effect |
| EngineLemmas.NavigateDown | internal/ui/model.go:150-154 | navigating down from a line of the list moves one line down unless on the last line |
| EngineLemmas.NavigateUp | internal/ui/model.go:145-149 | navigating up from a line of the list moves one line up unless on the first line |
| EngineLemmas.IterateMoves | internal/ui/model.go:145-154 | repeating a one-line step `n` times moves by `n`, clamped onto the list |
| EngineLemmas.PressDownMoves | internal/ui/model.go:150-154 | one down press while paused on a line of the list moves one line down, clamped onto the list, and stays paused |
| EngineLemmas.DownMovesByOne | internal/ui/model.go:150-154 | the down key, as a step on paused models on the list, moves one line down, clamped onto the list |
| EngineLemmas.PressUpMoves | internal/ui/model.go:145-149 | one up press while paused on a line of the list moves one line up, clamped onto the list, and stays paused |
| EngineLemmas.UpMovesByOne | internal/ui/model.go:145-149 | the up key, as a step on paused models on the list, moves one line up, clamped onto the list |
| EngineLemmas.RepeatedDown | internal/ui/model.go:96-99 | `n` down presses from line `l` end on `min(l + n, total - 1)` |
| EngineLemmas.RepeatedUp | internal/ui/model.go:86-89 | `n` up presses from line `l` end on `max(l - n, 0)` |
| EngineLemmas.SixDownPressesFromFiveOfTen | internal/ui/model.go:96-99 | from line 5 of 10, six down presses stop at line 9 |
| EngineLemmas.EnsureCursorVisibleCases | internal/ui/model.go:74-83 | no-op when live or when the cursor is in the window; otherwise the offset requested is the cursor line (above) or `line - height + 1` (below) |
| EngineLemmas.CursorVisibleAfterwards | internal/ui/model.go:74-83 | afterwards the cursor is on screen whenever some offset can show it |
| EngineLemmas.SyncCursor | internal/ui/model.go:234-271 | the cursor is pulled back to the last line (to -1 for an empty list) and otherwise kept; the cursor's message is the owner of its line while paused and nothing while live |
| EngineLemmas.SyncPicksOwner | internal/ui/model.go:256-258 | while paused the picked message holds the cursor's line |
| EngineLemmas.DrawnContentShape | internal/ui/model.go:245-262 | styling ignored, global line `g` reads as `ShownLine`, padded exactly while paused on the cursor line or in the cursor's message; its base segments have `CursorStyle` iff `paused && g == cur`, `MsgHighlightStyle` iff `paused && g != cur` and `g` lies in `Start(o)..Start(o+1)` for `o` the owner of `cur`, and are unstyled otherwise; keys appear only on those lines, in the matching key style; every other line is one unstyled segment |
| EngineLemmas.DrawnText | internal/ui/model.go:262-266 | styling ignored, line `g` with its break reads as its shown text followed by `"\n"` exactly when `HasBreak` holds |
| EngineLemmas.BreaksOfNonEmptyLast | internal/ui/model.go:264 | when the last message has lines, every line but the list's last has a break and the last has none |
| EngineLemmas.DrawnPrefixText | internal/ui/model.go:244-268 | lines 0 up to `b`, all with breaks, read as their shown texts each ended by `"\n"` |
| EngineLemmas.RenderTextJoined | internal/ui/model.go:241-268 | when the last message has lines, the text written is the shown lines joined by `"\n"` |
| EngineLemmas.RenderTextTerminated | internal/ui/model.go:241-268 | when the last message has no lines (or there is none), every shown line is followed by `"\n"` |
| EngineLemmas.RenderText | internal/ui/model.go:241-268 | styling ignored, `syncViewport` writes the flattened lines, each padded exactly when highlighted or under the cursor, with a line break after every line but the last line of a non-empty last message |
| EngineLemmas.LiveRenderText | internal/ui/model.go:241-268 | while live nothing is padded: the text written is the lines joined by `"\n"` |
| EngineLemmas.PostWhileLive | internal/ui/model.go:188-192 | while live the end of a step only lets the viewport scroll |
| EngineLemmas.PostFollowsScroll | internal/ui/model.go:193-203 | while paused the cursor moves by the viewport's offset change, then is clamped to at least 0 and, for a non-empty list, to at most `total - 1` |
| EngineLemmas.PauseToggles | internal/ui/model.go:131-138 | pausing puts the cursor on `max(0, offset + visible - 1)`; resuming keeps it; the flag flips either way |
| EngineLemmas.DroppedWhilePaused | internal/ui/model.go:170-176 | a message arriving while paused is not stored; the next frame is asked for |
| EngineLemmas.StoredWhileLive | internal/ui/model.go:170-176 | a message arriving live is filed at the end of its kind's list |
| EngineLemmas.PostKeepsLists | internal/ui/model.go:188-206 | the end of a step keeps the lists and the active kind |
| EngineLemmas.SwitchKeepsLists | internal/ui/model.go:122-130 | a tab key keeps the lists |
| EngineLemmas.KeysKeepLists | internal/ui/model.go:117-158 | no key touches the lists |
| EngineLemmas.OnlyMessagesChangeLists | internal/ui/model.go:113-209 | only an incoming message changes the lists |
| EngineLemmas.Yank | internal/ui/model.go:139-144 | yank copies the cursor message's lines joined by line breaks, only while paused and only when there is one, and changes nothing |
| EngineLemmas.OnlyYankCopies | internal/ui/model.go:113-209 | nothing but yank writes to the clipboard |
| EngineLemmas.QuitAndFault | internal/ui/model.go:119-121 | quit and a transport error stop the program; only the error is recorded |
| EngineLemmas.TabKeys | internal/ui/model.go:122-130 | each tab key makes its kind active |
| EngineLemmas.InitialInv | internal/ui/model.go:41-49 | the new model is live and satisfies the cursor invariant |
| EngineLemmas.PostEstablishesInv | internal/ui/model.go:188-206 | the end of every step leaves the invariant holding |
| EngineLemmas.NavigateKeepsInv | internal/ui/model.go:145-154 | navigating keeps the invariant |
| EngineLemmas.KeysKeepInv | internal/ui/model.go:117-158 | every key keeps the invariant |
| EngineLemmas.UpdateKeepsInv | internal/ui/model.go:113-209 | every step keeps the invariant |
| EngineLemmas.YankCopiesCursorMessage | internal/ui/model.go:139-144 | yank while paused with the cursor on the list copies exactly the message owning the cursor's line |
| UiModel.StyleLine | internal/ui/model.go:247-261 | the segments written for one line are the padded, key-highlighted line in the cursor or message style, or the bare line |
| UiModel.RenderLinesNext | internal/ui/model.go:246-267 | one more line of message `i` appends its segments and its line break |
| UiModel.WriteLines | internal/ui/model.go:246-267 | the inner loop writes message `i`'s lines, advances the line counter to the next message's start, and records the cursor's message once passed |
| UiModel.SyncFields | internal/ui/model.go:234-271 | the clamped cursor, the picked message and the rendered content are exactly the fields `Sync` sets |
| UiModel.Model.constructor | internal/ui/model.go:41-49 | the model's value is the initial state for the active kind |
| UiModel.Model.CursorMsgIndex | internal/ui/model.go:59-72 | the loop returns the owner index of the cursor line |
| UiModel.Model.EnsureCursorVisible | internal/ui/model.go:74-83 | the new state is `EnsureCursorVisible` of the old |
| UiModel.Model.CursorUp | internal/ui/model.go:85-93 | the new state is `CursorUp` of the old |
| UiModel.Model.CursorDown | internal/ui/model.go:95-104 | the new state is `CursorDown` of the old |
| UiModel.Model.WriteList | internal/ui/model.go:241-268 | the two loops write `Render` of the active list, line by line as `Engine.RenderByLine`, `EngineLemmas.RenderText` and `DrawnContentShape` describe it, and find the cursor's message |
| UiModel.Model.SyncViewport | internal/ui/model.go:234-271 | the new state is `Sync` of the old |
| UiModel.Model.TogglePause | internal/ui/model.go:131-138 | the new state is `TogglePause` of the old |
| UiModel.Model.Resize | internal/ui/model.go:160-168 | the new state is the resized, re-synced old state |
| UiModel.Model.Receive | internal/ui/model.go:170-176 | the new state is `Receive` of the old |
| UiModel.Model.Follow | internal/ui/model.go:188-203 | the new state is `Follow` of the old |
| UiModel.Model.Post | internal/ui/model.go:188-206 | the new state is `Post` of the old |
| UiModel.Model.Switch | internal/ui/model.go:122-130 | the new state is the old with the kind switched, re-synced and posted |
| UiModel.Model.Navigate | internal/ui/model.go:145-154 | the new state is `Navigate` of the old |
| UiModel.Model.KeyPress | internal/ui/model.go:117-158 | new state and effect are `KeyStep` of the old state |
| UiModel.Model.Update | internal/ui/model.go:113-209 | new state and effect are `Update` of the old state |
| UiRoot.RootModel.constructor | internal/ui/root.go:398-404 | the model's value is the initial state for the active kind |
| UiRoot.RootModel.ActiveMessages | internal/ui/root.go:97-106 | the list selected is the one the ui store selects for the kind: metrics, traces, or logs for every other kind |
| UiRoot.RootModel.TotalLines | internal/ui/root.go:108-115 | the loop's sum is the line total of the active list |
| UiRoot.RootModel.CursorMsgIndex | internal/ui/root.go:117-130 | the loop returns the owner index of the cursor line |
| UiRoot.RootModel.EnsureCursorVisible | internal/ui/root.go:132-141 | the new state is `EnsureCursorVisible` of the old |
| UiRoot.RootModel.CursorUp | internal/ui/root.go:143-151 | the new state is `CursorUp` of the old |
| UiRoot.RootModel.CursorDown | internal/ui/root.go:153-163 | the new state is `CursorDown` of the old |
| UiRoot.RootModel.WriteList | internal/ui/root.go:323-350 | the two loops write `Render` of the active list, line by line as `Engine.RenderByLine`, `EngineLemmas.RenderText` and `DrawnContentShape` describe it, and find the cursor's message |
| UiRoot.RootModel.ActiveLines | internal/ui/root.go:306-318 | the active list and its line total |
| UiRoot.RootModel.SyncViewport | internal/ui/root.go:305-353 | the new state is `Sync` of the old, as for the newer model |
| UiRoot.RootModel.TogglePause | internal/ui/root.go:192-199 | the new state is `TogglePause` of the old |
| UiRoot.RootModel.Resize | internal/ui/root.go:221-229 | the new state is the resized, re-synced old state |
| UiRoot.RootModel.Receive | internal/ui/root.go:231-243 | the new state is `Receive` of the old: appended by kind while live, dropped while paused |
| UiRoot.RootModel.Follow | internal/ui/root.go:256-272 | the new state is `Follow` of the old |
| UiRoot.RootModel.Post | internal/ui/root.go:256-277 | the new state is `Post` of the old |
| UiRoot.RootModel.Switch | internal/ui/root.go:183-191 | the new state is the old with the kind switched, re-synced and posted |
| UiRoot.RootModel.Navigate | internal/ui/root.go:206-215 | the new state is `Navigate` of the old |
| UiRoot.RootModel.KeyPress | internal/ui/root.go:178-219 | new state and effect are `KeyStep` of the old state |
| UiRoot.RootModel.Update | internal/ui/root.go:174-278 | new state and effect are `Update` of the old state, the same function as for the newer model |
| Highlight.ScanKeyBody | internal/ui/highlight.go:19 | the first quote or backslash at or after `k`, with none before it |
| Highlight.SkipSpace | internal/ui/highlight.go:19 | the first non-space at or after `k`, with only space before it |
| Highlight.MatchEndAt | internal/ui/highlight.go:19 | a match end found lies after the start and within the string |
| Highlight.MatchEndAtIsTheMatch | internal/ui/highlight.go:19 | a match of `"[^"\\]*"\s*:` at `i` ends at `e` iff the scanner reports `e` |
| Highlight.MatchIsUnique | internal/ui/highlight.go:19 | at most one match starts at a given position |
| Highlight.FindAll | internal/ui/highlight.go:25 | the positions reported lie in order inside the string |
| Highlight.FindAllMatches | internal/ui/highlight.go:25-26 | every pair reported is a match |
| Highlight.NoMatchBeforeFirst | internal/ui/highlight.go:25 | no match starts before the first match reported |
| Highlight.FindAllIsLeftmost | internal/ui/highlight.go:25-31 | no match starts in any stretch the search skipped: leftmost-first, non-overlapping |
| Highlight.FindAllEmptyOnEmpty | internal/ui/highlight.go:33-36 | the empty string has no matches |
| Highlight.KeySpansConcat | internal/ui/highlight.go:25-31 | the key positions of concatenated segments are those of each part, the second shifted |
| Highlight.Gap | internal/ui/highlight.go:27-29 | the text before a match is written as one base segment when non-empty and not at all otherwise |
| Highlight.BuildTexts | internal/ui/highlight.go:22-37 | styling ignored, the segments spell the input from `last` on |
| Highlight.PiecesTexts | internal/ui/highlight.go:27-31 | three runs for consecutive stretches spell their union |
| Highlight.BuildKeySpans | internal/ui/highlight.go:25-31 | the key segments sit exactly at the matches, in order |
| Highlight.WellFormedConcat | internal/ui/highlight.go:27-35 | two runs with no empty or adjacent base segments join into one, when the first does not end in a base segment |
| Highlight.BuildWellFormed | internal/ui/highlight.go:27-35 | no empty base segment and no two adjacent base segments |
| Highlight.HighlightedProperties | internal/ui/highlight.go:22-37 | styling ignored the output is the input; key segments are exactly the leftmost matches; base segments non-empty and never adjacent; the empty string gives nothing and a string without a match one base segment |
| Highlight.KeySegmentsAreMatches | internal/ui/highlight.go:19 | every key segment is one match of the pattern |
| Highlight.BuildStep | internal/ui/highlight.go:25-31 | one turn of the loop writes the gap, then the match, then the rest |
| Highlight.LoopStep | internal/ui/highlight.go:25-31 | the loop invariant carried across one match |
| Highlight.HighlightJSONKeys | internal/ui/highlight.go:22-37 | the loop writes exactly the segment list whose properties `HighlightedProperties` states; it models as well the identical older copy `highlightJsonKeys` at internal/ui/root.go:44-59, which `RootModel` calls at root.go:339-342 |
| Highlight.Highlighted | internal/ui/highlight.go:22-37 | styling ignored, the segments spell the input |
| PrettyJSON.QuoteFrom | internal/ui/common/prettyjson.go:11 | the first quote at or after `k`, with none before it |
| PrettyJSON.MatchAt | internal/ui/common/prettyjson.go:11 | a match end found is at least four characters on |
| PrettyJSON.MatchAtIsMatch | internal/ui/common/prettyjson.go:11 | the scanner reports `e` iff `"([^"]+)":` matches from `i` to `e`, so the match at `i` is unique |
| PrettyJSON.FirstMatch | internal/ui/common/prettyjson.go:28 | the submatch found lies at or after `from` |
| PrettyJSON.Replacement | internal/ui/common/prettyjson.go:26-34 | with no sub-match the matched text is kept; with one the replacement ends in the colon (`ReplacementOfMatch` gives it exactly) |
| PrettyJSON.RawCons | internal/ui/common/prettyjson.go:26 | the text of pieces distributes over a leading piece |
| PrettyJSON.EmitCons | internal/ui/common/prettyjson.go:26 | the output of pieces distributes over a leading piece |
| PrettyJSON.ScanRaw | internal/ui/common/prettyjson.go:26 | the scan into verbatim characters and keys loses and reorders nothing |
| PrettyJSON.ScanKeys | internal/ui/common/prettyjson.go:11 | every key matched is non-empty and holds no quote |
| PrettyJSON.ReplacementOfMatch | internal/ui/common/prettyjson.go:28-33 | re-matching a match finds it at its start, so the `len(sub) < 2` fallback is never taken and the replacement is `render("\"k\"") + ":"` |
| PrettyJSON.RewriteKeyStep | internal/ui/common/prettyjson.go:26-34 | one match is written as its rendered key |
| PrettyJSON.RewriteCharStep | internal/ui/common/prettyjson.go:26 | a character outside the matches is written as it is |
| PrettyJSON.RewriteEmitsScan | internal/ui/common/prettyjson.go:25-35 | `Rewrite`, the `ReplaceAllStringFunc` pass, writes each piece of the scan in order: text outside matches copied, each match replaced by its rendered key |
| PrettyJSON.EmitIdentity | internal/ui/common/prettyjson.go:33 | with an identity renderer the pieces are written back as they came |
| PrettyJSON.HighlightKeysSpec | internal/ui/common/prettyjson.go:25-35 | text outside matches copied unchanged and in order; each `"k":` becomes `render("\"k\"") + ":"` |
| PrettyJSON.HighlightKeys | internal/ui/common/prettyjson.go:25-35 | the output is the source read as characters and keys, each character copied and each key rendered with its quotes and followed by its colon |
| PrettyJSON.IdentityRenderKeepsText | internal/ui/common/prettyjson.go:25-35 | with an identity renderer `HighlightKeys` is the identity |
| PrettyJSON.NoMatchIsFixed | internal/ui/common/prettyjson.go:25-35 | `Rewrite` gives text with no match back unchanged |
| PrettyJSON.IdempotentWhenRenderingHidesKeys | internal/ui/common/prettyjson.go:18-24 | idempotence, as the documentation claims, whenever the rendering leaves no match in the output |
| AppItem.NewItem | internal/app/item.go:17-20 | the message is kept; the lines join back into the styled text, number one more than its line breaks, and hold no line break |
| AppItem.NewItemRoundTrip | internal/app/item.go:18-19 | the styled text is the highlighted pretty text, and the lines are a given list of break-free lines iff the styled text is their join |
| AppStore.LastHolding | internal/app/store.go:40-48 | the backward search returns the last entry among the first `k` holding the line, or nothing iff none does |
| AppStore.EndsBeforeLater | internal/app/store.go:28-33 | in tiled entries an entry ends no later than any later entry starts |
| AppStore.HolderIsUnique | internal/app/store.go:40-48 | at most one tiled entry holds a given line |
| AppStore.HolderFrom | internal/app/store.go:40-48 | a line at or after an entry's start and within the list is held by that entry or a later one |
| AppStore.LastHoldingOfContiguous | internal/app/store.go:40-48 | over tiled entries an entry is found iff `0 <= line < len(lines)`, and it is the unique entry holding the line |
| AppStore.AppendKeepsContiguous | internal/app/store.go:28-33 | appending one item's lines and its entry keeps the entries tiling the lines: first start 0, each end the next start, the last end the length, each slice the entry's lines |
| AppStore.PaintedTexts | internal/app/store.go:61-75 | styling ignored, the painted lines are the lines joined by line breaks |
| AppStore.PaintedShape | internal/app/store.go:61-75 | line `i` is segment `2i` with the style of line `i`, and each line break is a separate segment between lines |
| AppStore.RenderedIsContent | internal/app/store.go:57-60 | styling ignored, `render` writes the content; not paused, it writes exactly `content()` |
| AppStore.LineStyleCases | internal/app/store.go:64-74 | line `c` gets the cursor style; the other lines of `c`'s entry the message style; every other line none; a cursor off the list styles nothing |
| AppStore.LineStyle | internal/app/store.go:66-73 | the cursor style exactly on the cursor line; the message style only on a line that shares an entry with the cursor line; no other style |
| AppStore.Painted | internal/app/store.go:61-75 | `n` lines give `2n - 1` segments (none for none), all plain: the app package picks out no keys |
| AppStore.Rendered | internal/app/store.go:57-76 | every segment is plain; not paused, the output is one unstyled segment |
| AppStore.ContentSplitsIntoLines | internal/app/store.go:35-37 | the content of a non-empty store splits back into its lines |
| AppStore.Store.constructor | internal/app/store.go:26 | a new store is empty and tiled |
| AppStore.Store.Append | internal/app/store.go:28-33 | the item's lines go at the end, the new entry spans from the old length to the new one, earlier lines and entries stay, and tiling is kept |
| AppStore.Store.MessageForLine | internal/app/store.go:40-48 | the backward loop returns the last entry holding `line`, or nothing |
| AppStore.Store.Content | internal/app/store.go:35-37 | an empty store gives the empty string; the content of a tiled non-empty store splits back into its lines |
| AppStore.Store.Render | internal/app/store.go:57-76 | the loop writes `Rendered` of the store: the plain content when live, the painted lines when paused |
| Endpoint.Effective | internal/ui/root.go:380-382 | the endpoint used is never empty: the given one, or `ws://127.0.0.1:12001` when it is empty |
| Endpoint.CheckEndpoint | internal/ui/root.go:379-385 | the effective endpoint is dialled iff it parses with a scheme and a host, and rejected otherwise |
| Endpoint.DefaultAndScheme | internal/app/root.go:238-244 | an empty endpoint is checked and dialled as the default one; a non-empty one as given |
| AppRoot.StepEffects | internal/app/root.go:105-172 | the program quits exactly on the quit key and on a transport error, and asks for the next frame exactly after a message |
| AppRoot.QuitAndFaultKeepState | internal/app/root.go:111-113 | the quit key changes nothing; a transport error records the error and nothing else |
| AppRoot.PauseToggles | internal/app/root.go:123-124 | the pause key flips the flag and touches nothing but the viewport offset |
| AppRoot.PausedDropsMessages | internal/app/root.go:140-154 | a message arriving while paused is dropped |
| AppRoot.LiveAppends | internal/app/root.go:140-154 | a live message is highlighted and appended to its kind's list (logs for every other kind), the other lists kept, and the active list shown |
| AppRoot.SwitchShowsList | internal/app/root.go:114-122 | a tab key makes its kind active and shows that kind's texts |
| AppRoot.ResizeSetsSize | internal/app/root.go:130-138 | a window size sets the width and the height less the margin of 2, and marks the model ready |
| AppRoot.SyncShows | internal/app/root.go:201-212 | afterwards the viewport shows the active list joined by line breaks, logs for every kind but metrics and traces |
| AppRoot.ScrolledKeepsShown | internal/app/root.go:166-169 | the viewport's own update moves the offset only |
| AppRoot.ReactKeepsShown | internal/app/root.go:108-164 | each event handler keeps the viewport showing the active list |
| AppRoot.StepKeepsShown | internal/app/root.go:105-172 | once the viewport shows the active list, every step keeps it so |
| AppRoot.ArriveAllAppends | internal/app/root.go:140-153 | live messages of one kind are kept in arrival order, each highlighted |
| AppRoot.AppInitial | internal/app/root.go:257-263 | the new model holds no text of any kind and shows the kind given; it is not ready, not paused, has no error, and its viewport is empty |
| AppRoot.KindTexts | internal/app/root.go:202-210 | the texts read are the ones the kind's bucket names: metrics, traces, or logs for every other kind |
| AppRoot.Shown | internal/app/root.go:211 | one unstyled segment whose text is the kind's texts joined by line breaks |
| AppRoot.File | internal/app/root.go:143-150 | the text goes at the end of its kind's list; every other bucket is kept, and nothing but the lists changes |
| AppRoot.SyncContent | internal/app/root.go:201-212 | only the viewport changes; it shows the active kind's texts and keeps its size |
| AppRoot.React | internal/app/root.go:108-164 | the error is set exactly by a transport error, the pause flag flips exactly on the pause key, and the lists change only for a message arriving live |
| AppRoot.Step | internal/app/root.go:105-172 | the program quits exactly on the quit key and on a transport error; the quit key changes nothing; the lists change only for a message arriving live |
| AppRoot.AppModel.constructor | internal/app/root.go:257-263 | the model's value is the initial state for the active kind |
| AppRoot.AppModel.SyncViewport | internal/app/root.go:201-212 | the new state is `SyncContent` of the old |
| AppRoot.AppModel.KeyPress | internal/app/root.go:110-125 | the new state is `React` of the old for the key |
| AppRoot.AppModel.Resize | internal/app/root.go:130-138 | the new state is `React` of the old for the size |
| AppRoot.AppModel.Receive | internal/app/root.go:140-153 | the new state is `React` of the old for the message |
| AppRoot.AppModel.Update | internal/app/root.go:105-172 | new state and effect are `Step` of the old state |
| ServerSentEvents.Writer.constructor | cmd/handler.go:48 | a writer with the given output, no calls yet, and the given failure point |
| ServerSentEvents.Writer.Write | cmd/handler.go:54 | one call: it succeeds and appends exactly when it is not the failing call, and otherwise writes nothing and returns the failure |
| ServerSentEvents.Put | cmd/handler.go:54-56 | one write of the field list: progress on success, the final outcome on failure |
| ServerSentEvents.PutData | cmd/handler.go:57-62 | the loop writes one data line per piece, in order, and stops at the first failure |
| ServerSentEvents.Completed | cmd/handler.go:85 | when every write succeeded, the outcome is success with all fields written |
| ServerSentEvents.PutOptional | cmd/handler.go:63-67 | an optional field is written exactly when its value is non-empty |
| ServerSentEvents.PutHead | cmd/handler.go:54-62 | the id line, then the data lines |
| ServerSentEvents.DataPartShape | cmd/handler.go:53-73 | the data part is the id line, the data lines, the event line and the retry line in that order |
| ServerSentEvents.DataPart | cmd/handler.go:53-73 | the data part is empty exactly when there is no data, and otherwise starts with the id line |
| ServerSentEvents.Fields | cmd/handler.go:48-86 | with data the writes start with the data part; with a comment the write before the final blank line is the comment line |
| ServerSentEvents.PutDataPart | cmd/handler.go:53-73 | the data-related writes in order, stopping at the first failure |
| ServerSentEvents.MarshalTo | cmd/handler.go:48-86 | the output is the fields written up to the first failing write, the error is that write's error, and no later field is written |
| ServerSentEvents.FieldsEmpty | cmd/handler.go:49-51 | nothing is written exactly when there is neither data nor a comment |
| ServerSentEvents.DataLinesAt | cmd/handler.go:57-62 | data line `k` is `"data: " + piece k + "\n"` |
| ServerSentEvents.DataLinesLength | cmd/handler.go:57-62 | one data line per piece |
| ServerSentEvents.FieldsLayout | cmd/handler.go:53-83 | with data: the id line first, then one data line per line of the data in order (k breaks give k+1 lines, joining back to the data), then event and retry lines when non-empty, the comment line, and the blank line last |
| ServerSentEvents.NoDataIgnoresEventAndRetry | cmd/handler.go:53-83 | without data only the comment line and the blank line are written, and only with a comment |
| ServerSentEvents.ReadSnoc | cmd/handler.go:48-86 | reading one more line absorbs it into what was read |
| ServerSentEvents.ValueOfLine | cmd/handler.go:64 | a field line gives back its value under its own tag |
| ServerSentEvents.ReadNatOfDecimal | cmd/handler.go:54 | the digits of `n` read back as `n` |
| ServerSentEvents.SignedDigits | cmd/handler.go:54 | a minus sign followed by digits splits back into them |
| ServerSentEvents.ReadIntOfNegative | cmd/handler.go:54 | `%d` of a negative id reads back as that id |
| ServerSentEvents.ReadIntOfNatural | cmd/handler.go:54 | `%d` of a non-negative id reads back as that id |
| ServerSentEvents.ReadIntOfDecimal | cmd/handler.go:54 | `%d` of any id reads back as that id |
| ServerSentEvents.AbsorbId | cmd/handler.go:54 | the id line sets the id |
| ServerSentEvents.AbsorbData | cmd/handler.go:59 | a data line adds its piece to the data |
| ServerSentEvents.AbsorbEvent | cmd/handler.go:64 | the event line sets the event |
| ServerSentEvents.AbsorbRetry | cmd/handler.go:69 | the retry line sets the retry field |
| ServerSentEvents.AbsorbComment | cmd/handler.go:76 | the comment line sets the comment |
| ServerSentEvents.ReadDataLine | cmd/handler.go:59 | reading a data line after others appends its piece |
| ServerSentEvents.DataLinesCons | cmd/handler.go:57-62 | the data lines of a non-empty list are its first line, then the rest |
| ServerSentEvents.ConsTail | cmd/handler.go:57-62 | a list is its head followed by its tail |
| ServerSentEvents.ReadDataLines | cmd/handler.go:57-62 | reading the data lines appends exactly the pieces, in order |
| ServerSentEvents.ReadOptional | cmd/handler.go:63-79 | an optional field read sets its value when written and changes nothing otherwise |
| ServerSentEvents.ReadDataPart | cmd/handler.go:53-73 | the data part reads back as the id, the data's pieces, the event and the retry |
| ServerSentEvents.ReadBack | cmd/handler.go:48-86 | the writes read back give the event: ended iff it has data or a comment; id, data (joining back to the data), event and retry exactly when it has data; the comment always |
| ServerSentEvents.ConcatOneLines | cmd/handler.go:48-86 | one-line writes put on the stream are their texts, each followed by a line break |
| ServerSentEvents.FieldsAreOneLine | cmd/handler.go:48-86 | without a line break in the event, retry or comment, every write is exactly one line of the stream |
| ServerSentEvents.StreamLines | cmd/handler.go:48-86 | without a line break in the event, retry or comment, the bytes written split at line breaks into one line per write, in order, then the empty rest |
| ServerSentEvents.BrokenEventFields | cmd/handler.go:48-86 | the writes for id 0, data `x` and an event name `a` line break `b` |
| ServerSentEvents.EventWithLineBreakBreaksStream | cmd/handler.go:63-67 | an event name holding a line break is written as it is, so its four writes put five lines on the stream, a stray line `b` after the event line |

## Left out

- `internal/transport/websocket.go`: the dial loop, goroutines, channels, pings and cancellation are concurrency and network I/O. Only the back-off it calls is modelled. Its defaults (500 ms, 30 s) appear as `Backoff.DefaultBase` and `Backoff.DefaultMax`.
- `cmd/main.go`, `serveTelemetryStream` and the page handlers: HTTP serving, streaming and templates are I/O.
- `internal/ui/tabs.go`, `internal/ui/keys.go` and every `View` method: layout and static key tables. A key press reaches the model already classified as an `Engine.Key`.
- The spinner and the help widget: their updates produce only commands and have no state the core reads. The clipboard write is returned as the `copied` effect of a step. A request for the next frame is the `readNext` effect.
- `readFrame`: channel receives are I/O. Its three outcomes are the events `Incoming`/`Arrived`, `Fault`/`Failed` and, for a closed channel, the same fault.
- The bubbles viewport library: its code is not part of this model. `Viewports` states the behaviour the core relies on as definitions, and those definitions are assumptions, not facts proved about the library:
  - `SetYOffset` clamps into `[0, max(0, lines - height)]`;
  - `VisibleLineCount` is `min(height, lines - offset)`, and never negative;
  - `AtTop` and `AtBottom`;
  - `GotoBottom`;
  - the content's line count is its number of lines.

  The viewport's own reaction to an event (mouse wheel, page keys) is the parameter `scroll`.
- lipgloss: `Render` is a style tag in `Styles`, and the `render` parameter of `PrettyJSON.HighlightKeys`. `lipgloss.Width` is taken as one column per character.
- The OpenTelemetry decoders and marshalers and `encoding/json` are the uninterpreted fields of `Telemetry.Codec`. `url.Parse` is a parameter of `Endpoint.CheckEndpoint`. The random draw of `backoff` is the parameter `r`, and the seeding in `init` is left out.
- Value receivers: `Update` in `internal/app/root.go` and `internal/ui/model.go` works on a copy of the model and returns it. The classes update the one object in place, which is the same observable step.
- `msg.Pretty`: the app package reads a `Pretty` field that the message type (`internal/telemetry/parser.go:38-41`) does not have. The pretty text is therefore an explicit argument of `AppItem.NewItem`, `AppStore.Store.Append` and `AppRoot.AppEvent.Arrived`.
- ServerSentEvents.Writer.Write: a failing `fmt.Fprintf` is modelled as writing nothing. A partial write before the error is not modelled.
- ServerSentEvents.MarshalTo writes `comment: …` lines as the code does, not the standard `:` comment. So the reader's handling of comments follows the code, not section 9.2.5 of the WHATWG HTML Living Standard.
- ServerSentEvents.Read: it reads the list of writes, each a whole line with its line break, not the byte stream. It does not split at line breaks itself and does not accept `\r` line endings. It tells the fields apart by their first letter, expects the exact tags the writer uses (`id: `, `data: `, …), and reads the id back as a `%d` integer. A standard reader would take the id as a string and would drop the `comment:` field as an unknown field.
- ServerSentEvents.ReadBack is about the writes. On the byte stream it holds only under the premise of `StreamLines`. `MarshalTo` does not check that the event name, retry and comment are free of line breaks; one that holds a line break adds stray lines to the stream (`EventWithLineBreakBreaksStream`).
- Backoff.BackoffDelay: `time.Duration` is taken as its int64 count of nanoseconds.

## Findings

| source | as written | input that shows it | evidently intended | confidence | as-written member | corrected member |
|---|---|---|---|---|---|---|
| internal/transport/backoff.go:20 | `d := base << attempt` wraps in int64, and the dial loop in the transport raises `attempt` on every failure without bound | default base 500 ms and max 30 s, attempt 35: `500_000_000 * 2^35` wraps to a negative `d`, which is below `max`, so `rand.Int63n(d)` panics | `d = min(base * 2^attempt, max)` without wrap-around, which is positive for positive base and max, so every attempt draws from `[0, d)` | not executed | Backoff.DefaultBackoffPanicsAtAttempt35 | Backoff.IntendedNeverPanics |
