# Tech Skyline messaging demo: verified model of its sequential logic

Tech Skyline is a browser demo of a messaging and calling app. Almost all of it is React view
code. The sequential logic inside it is modelled here in Dafny, and properties of that model are
proved:

- **The live-voice panel** (`components/LiveVoice.tsx`, module `LiveVoice`). The class
  `LiveVoicePanel` holds the component's state and refs:
  - the flags `isConnected`, `isMuted`, `error` and `volumeLevel`;
  - the held session handle;
  - the virtual playback clock `nextStartTime`;
  - the set of active buffer sources. Each source keeps the start time and duration it was
    scheduled with;
  - the set of running volume loops, and the loop whose frame id `animationFrameRef` holds.
  The class has one method per callback: `connect`, `onopen`, `onaudioprocess`, `onmessage`, a
  source's `ended`, `onclose`, `onerror`, `disconnect`, and one turn of a volume loop. The pure
  function `ScheduleRun` describes what a run of chunks without an interruption receives. The
  lemmas about it prove three things: no overlap, non-decreasing starts, and every start at or
  after its arrival. `RunSplits` and `PlayTwoChunks` show that scheduling chunk by chunk, as
  `onmessage` does, gives the same run. The class invariant adds that every active source ends by the clock, so a
  newly scheduled chunk never overlaps anything still playing. The volume level is the mean of
  the byte frequency bins (`MeanLevel`), and it lies in [0, 255].
- **The chat shell** (`App.tsx`, module `App`). Pure functions give the new chat list for a send,
  for the assistant's reply and for opening a chat from the call log or the dial pad. Another pure
  function gives the export file name, which replaces each whitespace run with one `_`. Lemmas
  state what that replacement keeps and adds, and a split law fixes where each `_` goes. A third gives the expanded-row toggle. The class
  `ChatApp` holds the component's state fields. Its handlers apply these functions to the fields
  the source's setters change.
- **The dial pad** (`components/Keypad.tsx`, module `Keypad`). The class `DialPad` holds the
  input buffer. It is capped at 15 characters and only ever holds `0-9`, `*` and `#`. Delete
  removes the last character. The message and call buttons are disabled while the buffer is empty.
- **The shared records** (`types.ts`, module `Types`). `Message`, `ChatSession`, `CallLog` and
  `AppView` are datatypes. `Message.isAi` is the only `Option` field. The string-literal unions
  are datatypes too, each with its parser, which accepts exactly the union's tags. Dafny reserves
  the word `type`, so the source's `type` fields are named `kind`.

Times are `real` seconds. These are inputs to the handlers:
- the output context's `currentTime`;
- a decoded chunk's duration, or the fact that decoding failed;
- the clock readings of `Date.now()`;
- whether `connect` reaches its `catch` (the microphone is refused, or a synchronous audio-setup
  call throws). The session call is not awaited, so a session that fails is a successful
  `Connect` followed, when the service reports it, by `OnError`;
- the session handle;
- the response of the generative model.

Each callback runs to completion before the next one starts.

Behaviour of the code worth knowing:
- A chunk that fails to decode is not simply dropped. `onmessage` has already brought the clock
  up to `currentTime` (line 78 runs before the `await`). The rejected handler then never looks at
  that message's `interrupted` flag.
- Muting during a call does not stop outbound frames (see Findings).
- `disconnect` leaves the audio-context refs set, so teardown is not idempotent. Only the session
  close is "at most once", so that is all the model claims.
- The component keeps no connecting or erroring state. The model keeps the flags it keeps.
- Every successful `connect` starts a new volume loop, and `disconnect` cancels only the frame
  whose id the ref holds. After the service closes a call (`onclose` only clears
  `isConnected`) and Start is pressed again, or after Start is pressed twice before `onopen`,
  one loop outlives the hang-up (see Findings).

## Model

| member | source | states |
|---|---|---|
| Types.ParseChatKind | types.ts:17 | accepts exactly `direct`, `group` and `ai`, and returns the kind whose tag it read |
| Types.ChatKindRoundTrip | types.ts:17 | every chat kind prints to a tag that parses back to it |
| Types.ParseCallKind | types.ts:23 | accepts exactly `audio` and `video` |
| Types.CallKindRoundTrip | types.ts:23 | every call kind round-trips through its tag |
| Types.ParseDirection | types.ts:24 | accepts exactly `incoming`, `outgoing` and `missed` |
| Types.DirectionRoundTrip | types.ts:24 | every direction round-trips through its tag |
| Types.SixViews | types.ts:29-36 | `AppView` has exactly six members, all distinct, with six distinct names |
| Types.ParseView | types.ts:29-36 | a name parses only to the view that carries it; a name no view carries is refused |
| Types.ViewRoundTrip | types.ts:29-36 | every view round-trips through its name |
| Keypad.KeysTypeOneDialChar | components/Keypad.tsx:9-22 | every key's value is a single character from `0-9`, `*`, `#` |
| Keypad.EveryDialCharHasKey | components/Keypad.tsx:9-22 | every one of those twelve characters is typed by some key |
| Keypad.Pressed | components/Keypad.tsx:27-29 | a press appends the value when the length is below 15, and otherwise leaves the input unchanged |
| Keypad.Deleted | components/Keypad.tsx:31-33 | delete removes exactly the last character; an empty input stays empty |
| Keypad.PressKeepsWellFormed | components/Keypad.tsx:9-29 | a key press keeps the input at most 15 dial characters long and grows it by at most one |
| Keypad.DeleteKeepsWellFormed | components/Keypad.tsx:31-33 | delete keeps the input well formed |
| Keypad.DeleteUndoesPress | components/Keypad.tsx:27-33 | below the cap, a press followed by a delete restores the previous input |
| Keypad.DialPad.constructor | components/Keypad.tsx:25 | the pad starts empty |
| Keypad.DialPad.Press | components/Keypad.tsx:27-29 | the new input is `Pressed` of the old one, and the buffer stays well formed |
| Keypad.DialPad.Delete | components/Keypad.tsx:31-33 | the new input is `Deleted` of the old one, and the buffer stays well formed |
| Keypad.DialPad.Submit | components/Keypad.tsx:74-87 | each action button is disabled exactly when the input is empty; when enabled it hands the input, unchanged, to that button's callback (`onMessage` or `onCall`) |
| LiveVoice.InlineAudio | components/LiveVoice.tsx:75 | a payload is found only when server content, model turn, parts, a first part and its inline data are all present, and it is the first part's; when all of them are present, the result is exactly the first part's `data` |
| LiveVoice.AudioMessageShape | components/LiveVoice.tsx:75-76 | `CarriesAudio`: a first-part payload is audio exactly when it is not empty; a payload behind a first part without data is not looked at |
| LiveVoice.InterruptFlagShape | components/LiveVoice.tsx:103 | `IsInterrupted`: only a present and true `interrupted` flag interrupts; a message without server content neither interrupts nor carries audio |
| LiveVoice.StartAt | components/LiveVoice.tsx:78-81 | a chunk starts at the later of the clock and `currentTime`: no earlier than either, and equal to one of them |
| LiveVoice.ScheduleRun | components/LiveVoice.tsx:78-99 | a run of chunks with no interruption gets one playback per chunk |
| LiveVoice.RunStartsAfterArrival | components/LiveVoice.tsx:78-99 | each chunk keeps its duration and starts no earlier than its arrival; with non-negative inputs it also starts no earlier than the initial clock |
| LiveVoice.RunNeverOverlaps | components/LiveVoice.tsx:78-99 | successive chunks never overlap: the start of chunk i+1 is at or after the end of chunk i |
| LiveVoice.RunStartsNonDecreasing | components/LiveVoice.tsx:78-99 | with non-negative durations, start times never go backwards |
| LiveVoice.RunStartsAfterEarlierDurations | components/LiveVoice.tsx:78-99 | the i-th start is at least the initial clock plus the durations of the chunks before it |
| LiveVoice.RunSplits | components/LiveVoice.tsx:78-99 | a run scheduled as a whole equals its first part followed by its second part scheduled on the clock the first part leaves |
| LiveVoice.ClockAfterIsLastEnd | components/LiveVoice.tsx:78-99 | the clock a run leaves is the end of its last chunk |
| LiveVoice.ExampleRun | components/LiveVoice.tsx:78-99 | 0.5 s chunks arriving at 0, 0.3 and 1.2 start at 0, 0.5 and 1.2 |
| LiveVoice.BinSum | components/LiveVoice.tsx:134 | the sum of n byte bins is between 0 and 255·n |
| LiveVoice.MeanLevel | components/LiveVoice.tsx:132-135 | the mean is NaN (None) exactly when there are no bins; otherwise it lies in [0, 255] and times the bin count gives the sum |
| LiveVoice.ConstantBinsSum | components/LiveVoice.tsx:134 | n bins that all hold b sum to n·b |
| LiveVoice.MeanOfConstantBins | components/LiveVoice.tsx:132-135 | bins that all hold the same value average to that value |
| LiveVoice.LiveVoicePanel.constructor | components/LiveVoice.tsx:10-25 | the initial state: disconnected, unmuted, no error, level 0, no session, no sources, clock 0 |
| LiveVoice.LiveVoicePanel.Connect | components/LiveVoice.tsx:27-145 | as written: the error is cleared. A refused microphone or a throwing setup call shows the setup error and changes nothing else. Otherwise the session is held, the frame gate captures the current `isMuted`, and one more volume loop starts, whose frame id the ref now holds; loops already running go on. Clock and sources are left as they were |
| LiveVoice.LiveVoicePanel.ConnectFresh | components/LiveVoice.tsx:27-145 | corrected connect: like `Connect`, but a successful setup also cancels the previous loop's frame, empties the source set and resets the clock to 0; if at most one loop ran before, exactly the new one runs after |
| LiveVoice.LiveVoicePanel.OnOpen | components/LiveVoice.tsx:52-53 | `onopen` sets the connected flag |
| LiveVoice.LiveVoicePanel.ToggleMute | components/LiveVoice.tsx:233 | the button flips `isMuted` and nothing else; the installed frame gate does not see the change |
| LiveVoice.LiveVoicePanel.OnAudioFrame | components/LiveVoice.tsx:61-70 | as written: when the captured mute flag is set the frame sends nothing, and otherwise exactly this frame is sent |
| LiveVoice.LiveVoicePanel.OnAudioFrameLive | components/LiveVoice.tsx:61-70 | corrected gate: the same rule, read from the current `isMuted` |
| LiveVoice.LiveVoicePanel.OnMessage | components/LiveVoice.tsx:74-108 | An audio chunk becomes exactly one new source (an id not already active) at `max(clock, currentTime)`. The clock moves to that source's end, which is the one-chunk step of `ScheduleRun`. The new source overlaps no active source. A failed decode only syncs the clock. `interrupted` stops every active source, including the one just scheduled, empties the set and resets the clock to 0. A message with neither audio nor `interrupted` changes nothing. The invariant holds after every message |
| LiveVoice.LiveVoicePanel.OnEnded | components/LiveVoice.tsx:94-96 | `ended` removes only that source |
| LiveVoice.LiveVoicePanel.OnClose | components/LiveVoice.tsx:109-111 | `onclose` clears only the connected flag |
| LiveVoice.LiveVoicePanel.Disconnect | components/LiveVoice.tsx:147-163 | a held session is closed once and forgotten, and no session means no close. Exactly the loop whose frame id the ref holds is stopped, so when at most one loop ran, none runs after. The panel is disconnected with level 0 |
| LiveVoice.LiveVoicePanel.OnError | components/LiveVoice.tsx:112-116 | `onerror` shows the connection error, then does everything `Disconnect` does |
| LiveVoice.LiveVoicePanel.OnAnimationFrame | components/LiveVoice.tsx:130-138 | a turn of a running loop sets the level to the mean of the 128 bins (fftSize 256), within [0, 255], connected or not, and leaves that loop's frame id in the ref |
| LiveVoice.Cancelled | components/LiveVoice.tsx:157-158 | cancelling the ref's frame id stops at most one loop, the one that requested it |
| LiveVoice.PlayTwoChunks | components/LiveVoice.tsx:74-101 | two audio messages in a row without an interruption get exactly the two playbacks of `ScheduleRun`, and leave the clock `ClockAfter` gives |
| LiveVoice.DisconnectTwice | components/LiveVoice.tsx:147-151 | two hang-ups in a row close the session at most once; the second finds no handle |
| LiveVoice.MuteAfterConnectScenario | components/LiveVoice.tsx:61-62 | as written: after connecting unmuted and then pressing mute, the next frame is still sent |
| LiveVoice.MuteAfterConnectScenarioLive | components/LiveVoice.tsx:61-62 | with the corrected gate, the same presses send nothing |
| LiveVoice.SecondCallScenario | components/LiveVoice.tsx:78-81 | as written: after a call that scheduled 30 s of audio, the first chunk of the next call, arriving at 0.4 s, is held back to 30 s |
| LiveVoice.SecondCallScenarioFresh | components/LiveVoice.tsx:78-81 | with `ConnectFresh`, that chunk starts on arrival, at 0.4 s |
| LiveVoice.HangUpAfterRemoteCloseScenario | components/LiveVoice.tsx:109-158 | as written: connect, the service closes, connect again, hang up: the first loop still runs and sets the level of the disconnected panel to 255 |
| LiveVoice.HangUpAfterRemoteCloseScenarioFresh | components/LiveVoice.tsx:109-158 | with `ConnectFresh`, the same steps leave no loop running |
| App.JsWhitespaceClass | App.tsx:199 | the whitespace `trim()` and `\s` share: in ASCII exactly the space and tab through carriage return, and never `_` or a character `encodeURIComponent` keeps |
| App.Trim | App.tsx:199 | `trim()` never lengthens the text and leaves whitespace at neither end |
| App.TrimIsMiddleSlice | App.tsx:199 | `trim()` is the slice of the text after its leading and before its trailing whitespace |
| App.TrimEmptyIffBlank | App.tsx:199 | `!text.trim()` holds exactly for the input made only of whitespace, the empty input included |
| App.TrimStart | App.tsx:199 | drops exactly the leading whitespace |
| App.TrimEnd | App.tsx:199 | drops exactly the trailing whitespace |
| App.DecimalString | App.tsx:202 | `Date.now().toString()` is a non-empty string of digits without a leading zero |
| App.DecimalRoundTrip | App.tsx:202 | reading those digits back gives the number |
| App.Utf8 | App.tsx:299 | the UTF-8 form `encodeURIComponent` encodes: the shortest of one to four bytes, a lead byte announcing the length, `10xxxxxx` continuation bytes, and payload bits that read back as the code point, which leaves one sequence per code point |
| App.HexDigit | App.tsx:299 | an upper-case hexadecimal digit whose value is the given nibble |
| App.PercentEncode | App.tsx:299 | three characters per byte: byte `i` becomes `%`, the digit of its high nibble and the digit of its low nibble; no other character appears |
| App.EncodeUriComponent | App.tsx:299 | the avatar's name component holds only unreserved characters and `%`; a name of unreserved characters is kept as it is |
| App.EncodeUriJoin | App.tsx:299 | the encoding of a join is the join of the encodings, and one character is kept when unreserved and otherwise becomes the percent-encoded bytes of its UTF-8 form |
| App.ReplaceWhitespaceRuns | App.tsx:282 | the replacement never lengthens the name |
| App.ReplacedHasNoWhitespace | App.tsx:282 | the export name part contains no whitespace |
| App.ReplacedKeepsTheRest | App.tsx:282 | every character other than whitespace and `_` is kept, in order |
| App.ReplacedAddsOneUnderscorePerRun | App.tsx:282 | the result holds exactly one more `_` than the name for each maximal whitespace run |
| App.KeptSkipsRun | App.tsx:282 | dropping a whitespace run keeps the other characters |
| App.RunCountSkipsRun | App.tsx:282 | a whitespace run counts once, however long it is |
| App.RunHoldsNoUnderscore | App.tsx:282 | dropping a whitespace run removes no `_` |
| App.ReplaceSplitsAtRun | App.tsx:282 | a maximal whitespace run between two parts becomes one `_` between their replacements |
| App.ReplaceSingleRun | App.tsx:282 | two whitespace-free parts around one run become the first part, `_`, the second part: `a b_c` gives `a_b_c` |
| App.ReplaceIsIdentityWithoutWhitespace | App.tsx:282 | a name without whitespace is kept unchanged |
| App.ReplaceIsIdempotent | App.tsx:282 | replacing twice is replacing once |
| App.ExportFileName | App.tsx:282 | the export file name has no whitespace, starts with the replaced chat name and ends in `_log.json` |
| App.FindById | App.tsx:196 | the active chat is the first chat with the selected id; a null selection finds none |
| App.FindByName | App.tsx:289 | finds the first chat with the name, or reports that no chat has it |
| App.WithMessage | App.tsx:211-216 | the chat keeps its old messages in front and gets the new one last, as preview and timestamp; id, name, avatar, presence and kind stay |
| App.AppendToChat | App.tsx:209-219 | every chat with the id gets the message appended at the end and becomes its preview and timestamp. Every other chat, the ids, the length and the order are unchanged |
| App.AppendToMissingChat | App.tsx:209-219 | when no chat has the id, the list is unchanged |
| App.SendAllowedIffText | App.tsx:199 | `SendAllowed`: a send goes ahead exactly when the input has a non-whitespace character and a non-empty chat id is selected |
| App.OwnMessage | App.tsx:201-206 | the user's message is from `me`, keeps the text as typed, has no assistant flag, and its id reads back as its timestamp |
| App.IsAiChatIffFirstIsAi | App.tsx:224 | `IsAiChat`: the reply is awaited exactly when the first chat with the selected id has kind `ai` |
| App.ReplyText | App.tsx:238 | an absent or empty reply text falls back to "I'm having trouble connecting right now." |
| App.AiMessage | App.tsx:240-246 | the reply is from `ai`, flagged, stamped with the clock, and its id is one past the clock, so it differs from the id of a user message stamped with the same clock reading |
| App.NewChat | App.tsx:295-305 | the new chat has that name, no messages, kind `direct`, is offline, has the `Start of conversation` preview and the id `chat_<now>` |
| App.StartChat | App.tsx:287-310 | an existing name selects the first chat with it and leaves the list unchanged. Otherwise the new chat is prepended, the list grows by one, the rest is kept in order, and the new chat is selected |
| App.StartChatTwice | App.tsx:287-310 | opening a chat for the same name again changes nothing |
| App.Toggle | App.tsx:399 | clicking the expanded call collapses it; clicking any other call expands that one |
| App.ToggleTwice | App.tsx:399 | two clicks on the same call restore the earlier state exactly when no other call was expanded; otherwise they end collapsed |
| App.SeedData | App.tsx:20-91 | `MockChats` and `MockCalls` have distinct ids, and of the seed chats only the first is the assistant's |
| App.CallLogOpensChats | App.tsx:20-91 | from the seed call log, Sarah Jenkins opens her existing chat, and Mom gets a new chat prepended |
| App.ChatApp.constructor | App.tsx:180-185 | the app starts in the chats view with the mock chats, the first one selected, nothing typed, not typing, no call expanded, and the mock call log |
| App.ChatApp.SetInputText | App.tsx:574 | typing sets the input text |
| App.ChatApp.SelectChat | App.tsx:374 | clicking a chat selects its id |
| App.ChatApp.Navigate | App.tsx:334-345 | a navigation button shows its view |
| App.ChatApp.SendMessage | App.tsx:198-226 | Blank input or no selected chat changes nothing. Otherwise exactly the message (sender `me`, the untrimmed text, id and timestamp from the clock) is appended to the selected chat through `AppendToChat`, and the input is emptied. A reply is awaited, and typing turns on, exactly when the selected chat is the assistant's |
| App.ChatApp.ReceiveAiReply | App.tsx:227-264 | a response appends the reply, with the fallback text when the text is empty, to the chat the message went to; a failure appends nothing; typing always ends |
| App.ChatApp.StartChatFromCall | App.tsx:287-310 | the list and the selection become those of `StartChat`, and the view becomes the chats view |
| App.ChatApp.KeypadMessage | App.tsx:312-314 | the dialled number is opened like a contact name |
| App.ChatApp.MessageFromCallLog | App.tsx:396-419 | the message button of a call-log row opens a chat with that caller through `StartChatFromCall` |
| App.ChatApp.ToggleCall | App.tsx:396-399 | clicking a call-log row makes the expanded call `Toggle` of the previous one with that row's id |
| App.ChatApp.DownloadFileName | App.tsx:268-282 | there is no export when no chat is active; otherwise the export gets `ExportFileName` of the active chat's name, which has no whitespace |

## Left out

- Audio encoding and decoding (`createBlob`, `decode`, `decodeAudioData`): `services/audioUtils` is not part of this model. A chunk's decoded duration, or the failure to decode it, is an input of `OnMessage`, and frames go to the outbox unencoded.
- Web Audio and device plumbing (`getUserMedia`, the two `AudioContext`s, the script processor, the analyser node, track stopping, closing the contexts) is browser I/O. `Connect` takes the setup outcome as a parameter, and the analyser's bins are an input of `OnAnimationFrame`.
- `requestAnimationFrame` and `cancelAnimationFrame` are reduced to a set of running loops and the loop whose pending frame id the ref holds. The first synchronous `updateVolume()` call is one ordinary turn of `OnAnimationFrame`. A loop's turns are not tied to a frame rate and may come at any time while it runs.
- The model does not restrict when the browser invokes `onaudioprocess` or `onmessage`. For example, no method stops frames before `onopen` installs the processor.
- The generative-model SDK (`ai.live.connect`, `generateContent`), its configuration (voice, system instructions, model names) and `services/gemini.ts` are foreign calls. The session is a handle, and the chat reply is an input of `ReceiveAiReply`.
- Async interleaving: each handler is atomic. Two `onmessage` calls interleaving at the `await` between the clock sync and `start` are not modelled.
- IEEE floating point: times, durations and the volume level are exact reals.
- `console.error` logging, `alert` in `handleKeypadCall`, the JSON export content and its Blob/URL download, scroll effects, JSX rendering, and the dashboard (`components/Dashboard.tsx`, static charts) are view glue.
- `Date.now()` is read several times within one handler (message id and timestamp, reply id and timestamp). The model takes one reading per handler as its `now` input.
- LiveVoice.LiveVoicePanel.Connect: a failure after the microphone was acquired leaves a stream and contexts open in the source. Those resources are not modelled, so the contract only says that nothing else changes. A session promise that rejects is not observed by the panel: its handle stays held, and a later `Disconnect` records a close request on it that never runs.
- App.EncodeUriComponent: a Dafny `char` is a Unicode scalar value, so a string holding a lone surrogate cannot be written down. `encodeURIComponent` throws `URIError` on one (App.tsx:299); the model has no such error path. A surrogate pair of the source's UTF-16 string is one `char` here.
- LiveVoice.MeanLevel: the case without bins (JavaScript's NaN) is `None`. The analyser always reports 128 bins, so `OnAnimationFrame` never meets it.

## Findings

| source | as written | input that shows it | evidently intended | confidence | as-written member | corrected member |
|---|---|---|---|---|---|---|
| components/LiveVoice.tsx:61-62 | the frame gate reads the `isMuted` captured by the closure built when `connect` ran, so the mute button (line 233) never reaches it | connect unmuted, press mute, deliver one frame: it is sent | a muted call sends no frames | high, not executed | LiveVoice.MuteAfterConnectScenario | LiveVoice.MuteAfterConnectScenarioLive |
| components/LiveVoice.tsx:137-158 | `disconnect` cancels only the frame id in `animationFrameRef`, but a second `connect` (after `onclose`, or two clicks before `onopen`) starts a second loop without stopping the first | connect, the service closes, connect again, hang up: the first loop keeps running and sets the level of the disconnected panel | hanging up stops the volume meter | high, not executed | LiveVoice.HangUpAfterRemoteCloseScenario | LiveVoice.HangUpAfterRemoteCloseScenarioFresh |
| components/LiveVoice.tsx:21 | `connect` keeps `nextStartTimeRef` and `sourcesRef` from the previous call, but the new output context's clock starts again at 0 | call 1 schedules 30 s of audio at 0 s and is hung up without an interruption; in call 2 a chunk arriving at 0.4 s is scheduled at 30 s | the first chunk of a new call starts on arrival | medium, not executed | LiveVoice.SecondCallScenario | LiveVoice.SecondCallScenarioFresh |
