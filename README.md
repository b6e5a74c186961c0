# AutoArchitect core, modelled in Dafny

AutoArchitect is a browser application. From a plain-language description it designs
automation workflows ("blueprints") for platforms such as Zapier, n8n and Make. Its
centre is a live voice session with a model ("Live Architect"). Microphone audio goes
out to the model as PCM16 frames encoded in base64. Audio chunks and transcription
deltas come back; the chunks are played gaplessly on one playback cursor, and an
interruption cuts playback off.

Every one-shot model call goes through one bounded retry policy. The other views are
small state machines around those calls. Most blueprints live in a vault:

- the Generator and the Comparator append records to the vault in local storage;
- the Vault page lists, filters, imports and deletes records in its indexed-database
  table.

These are two different stores, and the model keeps them apart. A service worker caches
the application shell and answers API calls with an offline signal. The install banner
waits for an active service worker and a captured install event.

One module per source file:

| module | file | form |
|---|---|---|
| `GeminiService` | `gemini_service.dfy` | retry policy (spec function plus a method with a loop), base64 codec methods, PCM16 de-interleaving method |
| `Base64` | `base64.dfy` | the strict RFC 4648 alphabet codec `btoa`/`atob` stand for, with its round trip |
| `LiveArchitect` | `live_architect.dfy` | pure message engine (`Step`) plus the class `LiveSession`, whose handlers are proved to follow it |
| `SpeechLab` | `tts.dfy` | `bufferToWav` over an `array<byte>`, proved equal to a byte-level WAV specification; the synthesize handler |
| `ServiceWorker` | `service_worker.dfy` | request routing, offline reply, stale-while-revalidate, cache pruning on activate |
| `Chat` | `chat.dfy` | the 30-message window and the page's send handler |
| `Terminal` | `terminal.dfy` | command dispatch and the execution log |
| `Vault` | `vault.dfy` | filter, import (upsert until the first null), delete |
| `Generator` | `generator.dfy` | description validation, the two-call generate handler, save to vault |
| `PwaInstaller` | `pwa_installer.dfy` | the install banner's effect and event handlers |
| `LogicSandbox` | `logic_sandbox.dfy` | which blueprint a simulation runs on |
| `ImageAnalysis` | `image_analysis.dfy` | file and URL validation, data-URL payload extraction |
| `Comparator` | `comparator.dfy` | benchmark handler and the saved benchmark record |
| `Types`, `Text`, `Wrappers` | | shared records, the JavaScript string built-ins used, `Option` |

Awaited calls split their handlers in two at each `await`: a `Begin…` method up to the
call and a `Finish…` method after it. The call's settlement is an input
`Outcome<T>`, either `Resolved(value)` or `Rejected(message)`. `Types.MessageOr(m, f)` is
`err.message || fallback`. `Date.now()`, `crypto.randomUUID()`, `navigator.onLine`, the
audio clock and the file and network results are parameters.

## Model

| member | source | states |
|---|---|---|
| GeminiService.ResolveApiKey | src/services/geminiService.ts:9-15 | no key exactly when both variables are empty; the Vite variable wins when set; a key is never empty |
| GeminiService.ExecuteAiTask | src/services/geminiService.ts:17-34 | the retry loop returns exactly what the recursive policy `ExecuteAiTaskSpec` returns, and makes the same number of attempts |
| GeminiService.RetryingAttempts | src/services/geminiService.ts:21-33 | between 1 and retries+1 attempts are made; every attempt but the last failed with a retryable status (429 or ≥500); the last succeeded, was not retryable, or used up the retries |
| GeminiService.RetryingResult | src/services/geminiService.ts:21-33 | the result is the last attempt's value on success; on failure, the load-peak message for a 429, else the error's message or "Synthesis Engine Failure" |
| GeminiService.DefaultAttemptBound | src/services/geminiService.ts:17-20 | with the default retry count, at most 3 attempts; none and the "Critical Configuration Missing" error exactly when there is no key |
| GeminiService.ThrottledTwiceThenSuccess | src/services/geminiService.ts:25-28 | two 429s then a success return that success after 3 attempts |
| GeminiService.ServerErrorThreeTimes | src/services/geminiService.ts:25-32 | three 500s throw the last message after 3 attempts |
| GeminiService.BinaryString | src/services/geminiService.ts:146-152 | one char per byte, code equal to the byte |
| GeminiService.Encode | src/services/geminiService.ts:146-153 | the output is the base64 of the bytes and decodes back to them |
| GeminiService.Decode | src/services/geminiService.ts:155-163 | fails exactly when `atob` throws; otherwise one byte per char, equal to its code |
| GeminiService.PcmBytes | src/services/geminiService.ts:165-172 | two little-endian bytes per sample |
| GeminiService.PcmRoundTrip | src/services/geminiService.ts:171-179 | the Int16 view of encoded samples reads back every sample |
| GeminiService.DecodeAudioData | src/services/geminiService.ts:165-182 | a buffer exists exactly for an even byte count, at least one channel and a supported shape; it has `numChannels` channels of `samples / numChannels` frames, and frame i of channel c is interleaved sample `i*numChannels+c` over 32768 |
| GeminiService.ChannelSampleRange | src/services/geminiService.ts:177-179 | every decoded sample lies in [-1, 1) |
| GeminiService.FrameIndexInBounds | src/services/geminiService.ts:175-179 | the interleaved index read stays inside the Int16 view |
| Base64.DecodeEncode | src/services/geminiService.ts:146-163 | decoding the encoding of any byte sequence gives it back |
| Base64.EncodeLength | src/services/geminiService.ts:146-153 | the encoding has 4 chars per started 3-byte group |
| Base64.EncodeAlphabet | src/services/geminiService.ts:146-153 | every char of an encoding is in the alphabet or is padding |
| LiveArchitect.ApplyTranscription | views/LiveArchitectView.tsx:109-113 | an output delta is appended to the output buffer and wins over an input delta; otherwise an input delta goes to the input buffer; nothing else changes |
| LiveArchitect.TurnLines | views/LiveArchitectView.tsx:115-124 | turn completion appends the user line then the model line, each only when non-empty, keeps the earlier transcript, and clears both buffers |
| LiveArchitect.ChunkDuration | views/LiveArchitectView.tsx:127-133 | a decodable chunk has a positive duration |
| LiveArchitect.Interrupt | views/LiveArchitectView.tsx:145-152 | interruption stops every source, empties the set, resets the cursor to 0 and marks the output " [Interrupted]" |
| LiveArchitect.EndPlayback | views/LiveArchitectView.tsx:136-138 | an ended source leaves the set; nothing else changes |
| LiveArchitect.CleanupEngine | views/LiveArchitectView.tsx:42-59 | cleanup stops all sources and clears them, both buffers and the transcript |
| LiveArchitect.ScheduleKeeps | views/LiveArchitectView.tsx:129-142 | scheduling a chunk keeps the schedule well formed: sources end by the cursor, do not overlap, and carry distinct node numbers |
| LiveArchitect.Step | views/LiveArchitectView.tsx:107-153 | the message handler: transcription delta, turn completion, the cursor raised to the clock, the chunk scheduled when it decodes, and barge-in |
| LiveArchitect.StepKeepsSchedule | views/LiveArchitectView.tsx:107-153 | one message keeps the schedule well formed; a new source starts no earlier than the message's time |
| LiveArchitect.EndPlaybackKeepsSchedule | views/LiveArchitectView.tsx:136-138 | an ended source keeps the schedule well formed |
| LiveArchitect.RunKeepsSchedule | views/LiveArchitectView.tsx:107-153 | any sequence of messages keeps the schedule well formed |
| LiveArchitect.GaplessChunks | views/LiveArchitectView.tsx:129-142 | two chunks that arrive in time play back to back: the second starts where the first ends |
| LiveArchitect.ChunkAfterInterruptStartsNow | views/LiveArchitectView.tsx:129-152 | after an interruption the next chunk is the only source and starts at the current time |
| LiveArchitect.DeltaInCompletedTurn | views/LiveArchitectView.tsx:109-124 | a delta arriving with turn completion lands in the completed model line |
| LiveArchitect.HelloExample | views/LiveArchitectView.tsx:109-124 | "He" then "llo" with completion yields one model line "Hello" |
| LiveArchitect.UndecodableChunkSkipsInterrupt | views/LiveArchitectView.tsx:127-152 | a chunk that fails to decode aborts the handler: the interruption in the same message is not applied |
| LiveArchitect.StepSources | views/LiveArchitectView.tsx:127-152 | without interruption a message adds at most one source and removes none; a handled interruption leaves none |
| LiveArchitect.CaptureSamples | views/LiveArchitectView.tsx:91-94 | one PCM sample per captured float |
| LiveArchitect.FramePayload | views/LiveArchitectView.tsx:91-99 | the frame sent decodes to the PCM16 bytes of the captured samples, two per float |
| LiveArchitect.CaptureRange | views/LiveArchitectView.tsx:93 | in-range floats truncate toward zero; a full-scale 1.0 wraps to -32768 |
| LiveArchitect.StaleMuteGate | views/LiveArchitectView.tsx:89 | the as-written gate reads the mute flag captured at start, so it sends while muted and drops frames after unmuting; the intended gate sends exactly when not muted now |
| LiveArchitect.SendsFrame | views/LiveArchitectView.tsx:89 | as written: a frame is sent exactly when the session started unmuted |
| LiveArchitect.SendsFrameIntended | views/LiveArchitectView.tsx:89 | corrected: a frame is sent exactly when the microphone is not muted now |
| LiveArchitect.LiveSession.constructor | views/LiveArchitectView.tsx:17-40 | empty transcript, no sources, cursor 0, inactive and unmuted |
| LiveArchitect.LiveSession.StartSession | views/LiveArchitectView.tsx:71-80 | transcript cleared; the "Microphone Link Failure." error exactly when the microphone is refused or no key is set; the mute flag is captured for the audio callback |
| LiveArchitect.LiveSession.OnOpen | views/LiveArchitectView.tsx:82-106 | the session becomes active and the processor connected |
| LiveArchitect.LiveSession.ToggleMute | views/LiveArchitectView.tsx:214 | only the mute flag flips |
| LiveArchitect.LiveSession.AudioProcess | views/LiveArchitectView.tsx:88-102 | as written: one frame in PCM MIME is sent exactly when the stale mute gate passes |
| LiveArchitect.LiveSession.AudioProcessIntended | views/LiveArchitectView.tsx:88-102 | corrected: a frame is sent exactly when not muted now; a muted session sends nothing |
| LiveArchitect.LiveSession.OnMessage | views/LiveArchitectView.tsx:107-153 | the handler's field updates equal the engine's `Step` and keep the schedule invariant |
| LiveArchitect.LiveSession.ReceiveTranscription | views/LiveArchitectView.tsx:109-113 | the fields follow `ApplyTranscription` |
| LiveArchitect.LiveSession.FinishTurn | views/LiveArchitectView.tsx:115-124 | the fields follow `CompleteTurn` |
| LiveArchitect.LiveSession.PlayChunk | views/LiveArchitectView.tsx:127-143 | played exactly when the chunk decodes; the cursor is raised to now, then the chunk scheduled there |
| LiveArchitect.LiveSession.Flush | views/LiveArchitectView.tsx:145-152 | the fields follow `Interrupt` |
| LiveArchitect.LiveSession.OnSourceEnded | views/LiveArchitectView.tsx:136-138 | the fields follow `EndPlayback`; the invariant is kept |
| LiveArchitect.LiveSession.Cleanup | views/LiveArchitectView.tsx:42-59 | the fields follow `CleanupEngine`; inactive, stream released, processor disconnected |
| LiveArchitect.LiveSession.ClearEngine | views/LiveArchitectView.tsx:51-58 | the handler state follows `CleanupEngine`; the session flags are untouched |
| LiveArchitect.LiveSession.OnError | views/LiveArchitectView.tsx:154-158 | "Neural Uplink Error." then cleanup |
| LiveArchitect.LiveSession.StopAll | views/LiveArchitectView.tsx:146-148 | every source is stopped; the set itself is untouched |
| LiveArchitect.EncodeFrame | views/LiveArchitectView.tsx:91-99 | the loop's payload decodes to the PCM16 bytes of the frame |
| LiveArchitect.DecodeChunk | views/LiveArchitectView.tsx:131-133 | the decoded chunk's duration is `ChunkDuration` |
| SpeechLab.U16RoundTrip | views/TTSView.tsx:75-79 | a 16-bit little-endian field reads back its value mod 2^16 |
| SpeechLab.U32RoundTrip | views/TTSView.tsx:69-80 | a 32-bit little-endian field reads back its value mod 2^32 |
| SpeechLab.QuantizeRange | views/TTSView.tsx:83-86 | samples are clamped: within the Int16 range, sign kept, ±1 and beyond saturate |
| SpeechLab.WavBytes | views/TTSView.tsx:53-90 | the file is a 44-byte header and two bytes per sample |
| SpeechLab.WavHeaderLayout | views/TTSView.tsx:68-80 | RIFF size 36+data, fmt size 16, PCM format 1, mono, the sample rate, byte rate, block align 2, 16 bits, data size 2 per sample |
| SpeechLab.WavSampleLayout | views/TTSView.tsx:82-88 | sample i reads back from offset 44+2i as its quantized value |
| SpeechLab.Put | views/TTSView.tsx:64-66 | bytes land at the offset; later bytes are untouched |
| SpeechLab.WriteRiffDescriptor | views/TTSView.tsx:68-70 | the first 12 bytes are "RIFF", the size 36 + data length, "WAVE"; the rest is untouched |
| SpeechLab.WriteFmtHead | views/TTSView.tsx:71-74 | bytes 12-23 are "fmt ", size 16, format 1, one channel; the rest is untouched |
| SpeechLab.WriteFmtTail | views/TTSView.tsx:75-78 | bytes 24-35 are the sample rate, byte rate, block align and bit depth; the rest is untouched |
| SpeechLab.WriteFmtChunk | views/TTSView.tsx:71-78 | bytes 12-35 are the whole fmt chunk; the rest is untouched |
| SpeechLab.WriteDataHeader | views/TTSView.tsx:79-80 | bytes 36-43 are "data" and the data length; the rest is untouched |
| SpeechLab.BufferToWav | views/TTSView.tsx:53-90 | the written array equals the WAV specification of the first channel |
| SpeechLab.SpeechLabView.constructor | views/TTSView.tsx:9-14 | the given text, idle, no audio, manual or error |
| SpeechLab.SpeechLabView.BeginSynthesize | views/TTSView.tsx:23-28 | starts exactly on non-blank text when idle, clearing audio, manual and error |
| SpeechLab.SpeechLabView.FinishSynthesize | views/TTSView.tsx:30-50 | the manual is set on success; audio only for non-empty speech; a failure sets the message or "Synthesis failed."; loading always ends |
| SpeechLab.DecodeSpeech | views/TTSView.tsx:39-41 | one mono channel exactly when the speech decodes, holding its samples |
| ServiceWorker.Classify | sw.js:50-107 | unparsable URL unhandled; API host first; then navigation; then assets and images; else network-first, each as an if-and-only-if |
| ServiceWorker.GoogleFontsTakeApiRoute | sw.js:61-92 | a fonts.googleapis.com request takes the API route |
| ServiceWorker.FontClauseUnreachable | sw.js:89-98 | the stale-while-revalidate route is reached exactly by the asset clauses other than the Google Fonts one |
| ServiceWorker.OfflineResponse | sw.js:64-73 | status 503, JSON content type, the "offline" status and "SYNC_OFFLINE_ERR" code in the body |
| ServiceWorker.ApiReply | sw.js:61-78 | the network answer, or the 503 offline reply when it fails |
| ServiceWorker.RevalidateReply | sw.js:35-48 | the cached copy wins; else the network answer; nothing only when both miss |
| ServiceWorker.CachedCopy | sw.js:36-37 | a copy exactly for a GET the current cache holds, and then that entry |
| ServiceWorker.RevalidatedCache | sw.js:36-45 | the current cache, empty if it did not exist, holding the network answer exactly when it is a 200 to a GET; every other URL keeps its entry |
| ServiceWorker.MayCache | sw.js:40 | a network answer is stored only when its status is 200 and the request is a GET |
| ServiceWorker.MatchAny | sw.js:83 | a match exactly when some cache holds the key, and then the entry of the first such cache in creation order |
| ServiceWorker.NavigationFallbackAsWritten | sw.js:83 | as written: nothing exactly when no cache holds "index.html", whatever "./" holds; else an "index.html" entry |
| ServiceWorker.NavigationFallback | sw.js:83 | corrected: nothing only when neither "index.html" nor "./" is cached |
| ServiceWorker.NavigationFallbackDiffers | sw.js:83 | with only "./" cached, the as-written fallback answers nothing and the corrected one answers the shell |
| ServiceWorker.Prune | sw.js:22-25 | only the current cache survives |
| ServiceWorker.PruneKeepsCurrent | sw.js:22-25 | the current cache survives exactly when it existed; every other is gone |
| ServiceWorker.PruneIdempotent | sw.js:20-29 | activating twice equals activating once |
| ServiceWorker.DistinctRemove | sw.js:24 | deleting a cache removes exactly that name and keeps names distinct |
| ServiceWorker.Worker.Delete | sw.js:24 | the name and its entries are removed |
| ServiceWorker.Worker.Activate | sw.js:20-29 | the loop leaves the pruned names; the store holds only the current cache, unchanged |
| ServiceWorker.Worker.OpenCurrent | sw.js:36 | the current cache exists afterwards, created empty if missing |
| ServiceWorker.Worker.Revalidate | sw.js:35-48 | replies per `RevalidateReply` of `CachedCopy`; the current cache becomes `RevalidatedCache`, its name appended only when it was missing; every other cache untouched |
| ServiceWorker.Worker.HandleFetch | sw.js:50-107 | unhandled exactly for an unparsable URL; the API route answers per `ApiReply`; a failed navigation answers the as-written fallback, only "index.html"; network-first falls back to any cached GET; stale-while-revalidate replies per `RevalidateReply` of `CachedCopy` and leaves the current cache as `RevalidatedCache`, the only route that writes the cache |
| ServiceWorker.Worker.HandleFetchIntended | sw.js:80-86 | corrected: the same routes, stale-while-revalidate included, with a failed navigation answered by "index.html" or else "./" |
| ServiceWorker.Worker.Route | sw.js:50-107 | the route chosen by `Classify`, each answering as the handler does, given the navigation fallback; stale-while-revalidate replies and writes the current cache as `Revalidate` does |
| ServiceWorker.Worker.constructor | sw.js:1-17 | the cache storage the worker starts from: distinct names, one entry table per name |
| Chat.Latest | src/pages/Chat/index.tsx:14-33 | `slice(-30)`: the last min(n,30) messages |
| Chat.Window | src/pages/Chat/index.tsx:33-45 | append then keep the last 30: ends with the new message, unchanged prefix below 30 |
| Chat.LatestAppend | src/pages/Chat/index.tsx:33 | trimming before appending more equals trimming once at the end |
| Chat.WindowShowsLatest | src/pages/Chat/index.tsx:33-45 | a windowed append keeps the page a suffix of the full conversation, at most 30 long |
| Chat.ErrorShowsLatest | src/pages/Chat/index.tsx:47-52 | the untrimmed error append keeps the page a suffix, up to 31 long |
| Chat.WindowsAreLatest | src/pages/Chat/index.tsx:33 | any run of windowed appends equals the last 30 of the whole conversation |
| Chat.ChatPage.constructor | src/pages/Chat/index.tsx:15-18 | no messages, empty input, idle |
| Chat.ChatPage.BeginSend | src/pages/Chat/index.tsx:22-36 | blank input or a pending send does nothing; else the trimmed text is queried, appended as a user message through the window, input cleared, loading |
| Chat.ChatPage.FinishSend | src/pages/Chat/index.tsx:37-55 | the reply is appended through the window; an error appends its message or "Advisor link interrupted." untrimmed; loading ends |
| Chat.ChatPage.Reset | src/pages/Chat/index.tsx:67 | the conversation is emptied |
| Terminal.DispatchCases | views/TerminalView.tsx:33-49 | by the first word, case-insensitively: help, clear, `exec` with the rest of the line, or the whole line otherwise |
| Terminal.ExecutionEntry | views/TerminalView.tsx:51-70 | an error entry exactly when the key is missing or the call fails, and then it starts "Kernel Panic: "; else a non-empty response |
| Terminal.TerminalView.constructor | views/TerminalView.tsx:20-22 | no entries, empty input, not executing |
| Terminal.TerminalView.AddEntry | views/TerminalView.tsx:29-31 | exactly one entry appended |
| Terminal.TerminalView.ProcessCommand | views/TerminalView.tsx:33-49 | help appends the menu, clear empties the log, otherwise the prompt to execute |
| Terminal.TerminalView.Submit | views/TerminalView.tsx:72-78 | blank or busy input does nothing; else the command is echoed, input cleared and processed |
| Terminal.TerminalView.FinishExecute | views/TerminalView.tsx:51-70 | appends `ExecutionEntry` and ends execution |
| Text.JoinSplit | views/TerminalView.tsx:34-44 | joining the split pieces with the separator gives back the string |
| Text.SplitHeadTail | views/TerminalView.tsx:34-44 | the first piece is the text before the first space; the rest joined is the text after it |
| Text.Trim | src/pages/Chat/index.tsx:23-24 | `trim()` leaves no whitespace at either end |
| Text.TrimIsSlice | src/pages/Chat/index.tsx:23-24 | `trim()` is a contiguous slice of the input with only whitespace removed around it |
| Text.TrimEmptyIffBlank | src/pages/Chat/index.tsx:23-24 | `trim()` is empty exactly for all-whitespace input |
| Vault.Filtered | src/pages/Vault/index.tsx:77-81 | a record is shown exactly when it is stored and matches by name, platform or explanation |
| Vault.FilteredIsSubsequence | src/pages/Vault/index.tsx:77-81 | filtering keeps the stored order |
| Vault.EmptyFilterKeepsAll | src/pages/Vault/index.tsx:77-81 | an empty filter shows everything |
| Vault.LastWithId | src/pages/Vault/index.tsx:59-63 | the last imported record with a given id, or none |
| Vault.UpsertLookup | src/pages/Vault/index.tsx:59-63 | after import an id maps to its last imported record; other ids keep their record |
| Vault.UpsertKeyedById | src/pages/Vault/index.tsx:59-63 | the table stays keyed by each record's own id |
| Vault.Processed | src/pages/Vault/index.tsx:59-63 | import stops at the first null entry, where `.id` throws |
| Vault.VaultPage.constructor | src/pages/Vault/index.tsx:13-15 | the stored table keyed by id, nothing loaded, empty filter, no error |
| Vault.VaultPage.Shown | src/pages/Vault/index.tsx:77-81 | the shown list is an ordered sublist of the loaded records, exactly the matching ones |
| Vault.VaultPage.Load | src/pages/Vault/index.tsx:22-29 | a listing replaces the records; a failure keeps them |
| Vault.VaultPage.Delete | src/pages/Vault/index.tsx:31-38 | the id leaves the table; the invariant is kept |
| Vault.VaultPage.Import | src/pages/Vault/index.tsx:50-75 | parse error and non-array set their messages and change nothing; otherwise records are upserted up to the first null; reload exactly when all were stored |
| Generator.Validation | views/AutomationGeneratorView.tsx:69 | valid exactly at 20 trimmed characters; progress is 5 per character, capped at 100, and 100 exactly when valid |
| Generator.SavedRecord | views/AutomationGeneratorView.tsx:94-100 | the blueprint as shown, every field including the sources and documentation it carries, stamped with the time, under the fresh id and the typed name and version |
| Generator.GeneratorView.constructor | views/AutomationGeneratorView.tsx:56-67 | OpenAI, empty description, idle, version "1.0.0" |
| Generator.GeneratorView.BeginGenerate | views/AutomationGeneratorView.tsx:71-76 | starts exactly for a valid description; keeps the old blueprint while loading, clears the docs and shows the blueprint tab; every other field, the save name and version included, is kept |
| Generator.GeneratorView.FinishBlueprint | views/AutomationGeneratorView.tsx:77-88 | the blueprint is shown and the docs call follows; a failure shows the error with no blueprint; only the two states change |
| Generator.GeneratorView.FinishDocs | views/AutomationGeneratorView.tsx:79-88 | the docs are shown; a docs failure drops the blueprint and reports the error; only the two states change |
| Generator.GeneratorView.SaveToVault | views/AutomationGeneratorView.tsx:91-108 | without a blueprint or with a blank name nothing changes; else exactly one record is appended and success shown; only the vault and the success flag change |
| Generator.GeneratorView.SaveTimerFired | views/AutomationGeneratorView.tsx:104-107 | the two-second timer closes the save dialog and clears the success flag; every other field is kept |
| PwaInstaller.Installer.constructor | index.tsx:14-27 | hidden, no event, not ready, standalone as detected |
| PwaInstaller.Installer.RunEffect | index.tsx:77-89 | when ready a timer is armed; else hidden at once; the banner shows only while every condition holds |
| PwaInstaller.Installer.Settle | index.tsx:77-89 | the effect re-runs exactly when a watched flag changed: timer armed when ready, everything hidden when not; unchanged flags move nothing |
| PwaInstaller.Installer.TimerFired | index.tsx:82-84 | the banner appears; the state listener is kept |
| PwaInstaller.Installer.DisplayModeChanged | index.tsx:22-27 | the standalone flag is re-read, so becoming standalone hides the banner; then, if a watched flag changed, the effect arms the timer when ready or hides everything, and otherwise nothing moves; the state listener is kept |
| PwaInstaller.Installer.BeforeInstallPrompt | index.tsx:30-35 | the event is kept; then, if a watched flag changed, the effect arms the timer when ready or hides everything, and otherwise nothing moves, offline included; the state listener is kept |
| PwaInstaller.Installer.ReadyResolved | index.tsx:40-42 | ready only with an active worker; then, if a watched flag changed, the effect arms the timer when ready or hides everything, and otherwise nothing moves; the state listener is kept |
| PwaInstaller.Installer.Registered | index.tsx:45-58 | ready if the worker is already activated, otherwise a state listener is attached; then, if a watched flag changed, the effect arms the timer when ready or hides everything, and otherwise nothing moves |
| PwaInstaller.Installer.WorkerStateChanged | index.tsx:50-54 | ready when the worker listened to before the event activates, and the listener is kept; then, if a watched flag changed, the effect arms the timer when ready or hides everything, and otherwise nothing moves |
| PwaInstaller.Installer.AppInstalled | index.tsx:62-67 | event dropped, standalone, hidden; the state listener is kept |
| PwaInstaller.Installer.HandleInstall | index.tsx:91-98 | without an event nothing; else the event is consumed and the banner hidden; the state listener is kept |
| PwaInstaller.Installer.Dismiss | index.tsx:100-103 | hidden and never re-armed; the state listener is kept |
| LogicSandbox.Fallback | views/LogicSandboxView.tsx:62-75 | the stand-in is a two-step Zapier blueprint whose trigger carries the spec text |
| LogicSandbox.Target | views/LogicSandboxView.tsx:52-75 | nothing exactly when no blueprint is active and the spec is blank; the active one wins; else the parsed spec or the stand-in |
| LogicSandbox.SandboxView.constructor | views/LogicSandboxView.tsx:28-44 | the mock payload, an empty spec and an idle state |
| LogicSandbox.SandboxView.BeginSimulate | views/LogicSandboxView.tsx:52-78 | nothing to simulate sets only the error; else loading from a clean state |
| LogicSandbox.SandboxView.FinishSimulate | views/LogicSandboxView.tsx:79-84 | the response, or the error with no data |
| ImageAnalysis.MimeOf | views/ImageAnalysisView.tsx:28 | the file's type, or "image/jpeg" when it has none |
| ImageAnalysis.DataUrlPayload | views/ImageAnalysisView.tsx:31-33 | no payload exactly when the data URL has no comma |
| ImageAnalysis.PayloadOfDataUrl | views/ImageAnalysisView.tsx:31-33 | the base64 part of a well-formed data URL is recovered exactly |
| ImageAnalysis.UrlCheck | views/ImageAnalysisView.tsx:50-74 | status, then image type, then 10 MiB size; the first failure's message; accepted exactly when all pass |
| ImageAnalysis.ImageView.constructor | views/ImageAnalysisView.tsx:7-14 | no image, empty URL, "image/jpeg", the given prompt, idle, no result or error |
| ImageAnalysis.ImageView.ChooseFile | views/ImageAnalysisView.tsx:18-29 | error cleared; a file over 10 MiB refused; else its type kept and reading started; every other field, the URL included, is kept |
| ImageAnalysis.ImageView.FileRead | views/ImageAnalysisView.tsx:30-37 | the payload becomes the image and the result clears; a read error only sets its message; every other field, the URL included, is kept |
| ImageAnalysis.ImageView.BeginUrlFetch | views/ImageAnalysisView.tsx:42-48 | a blank URL does nothing; else fetching with error and result cleared; every other field, the URL included, is kept |
| ImageAnalysis.ImageView.UrlFetched | views/ImageAnalysisView.tsx:50-74 | a refusal reports the check's message and ends fetching; an acceptance keeps the type and reads; every other field, the URL included, is kept |
| ImageAnalysis.ImageView.UrlRead | views/ImageAnalysisView.tsx:63-69 | the payload becomes the image and fetching ends; a failed read leaves fetching on; every other field, the URL included, is kept |
| ImageAnalysis.ImageView.BeginAnalyze | views/ImageAnalysisView.tsx:77-80 | starts exactly with a non-empty image; every other field, the URL included, is kept |
| ImageAnalysis.ImageView.FinishAnalyze | views/ImageAnalysisView.tsx:81-89 | the analysis, or the message or "Analysis failed. Please try again."; loading ends; every other field, the URL included, is kept |
| ImageAnalysis.ImageView.ClearImage | views/ImageAnalysisView.tsx:92-97 | image, URL, result and error cleared; every other field is kept |
| Comparator.BenchmarkRecord | src/pages/Comparator/index.tsx:27-36 | "Benchmark - " and the upper-cased platform id, version "1.0.0", the entry's config as code, one logic step of the pros joined by ". " |
| Comparator.ComparatorPage.constructor | src/pages/Comparator/index.tsx:10-12 | Zapier, n8n and Make selected; idle |
| Comparator.ComparatorPage.BeginBenchmark | src/pages/Comparator/index.tsx:14-18 | starts exactly for a non-blank description when idle; every other field is kept |
| Comparator.ComparatorPage.FinishBenchmark | src/pages/Comparator/index.tsx:18-22 | the comparison, or the error with no data; every other field is kept |
| Comparator.ComparatorPage.SaveResult | src/pages/Comparator/index.tsx:25-42 | exactly one benchmark record appended to the vault; every other field is kept |
| Comparator.ComparatorPage.SaveTimerFired | src/pages/Comparator/index.tsx:41 | the two-second timer clears the success flag; every other field, the description included, is kept |

## Left out

- Audio devices, `getUserMedia`, `AudioContext` timing and the `ScriptProcessorNode` are not modelled. Microphone permission, the audio clock (`now`) and the captured frames are inputs. A playback source is a `Playback` record.
- The SDK calls (`ai.models.generateContent`, `ai.live.connect`, the chat session, speech generation) and their prompts are not modelled. Their settlement is an `Outcome` input; a failed attempt carries its HTTP status.
- `Date.now()`, `crypto.randomUUID()`, `navigator.onLine`, `fetch`, the Cache Storage API, `FileReader` and Dexie are not modelled. Their results are inputs or map-valued fields.
- The 1.5-second pause before a retry is not modelled: attempts are numbered, not timed.
- Async interleaving is not modelled: each `Begin…`/`Finish…` pair runs as two atomic steps. Two settlements racing each other are out of scope.
- `Promise.all` in the speech handler is one `Outcome` over the pair, so which rejection wins is not modelled.
- Base64 is the strict RFC 4648 codec. The browser's forgiving `atob` also accepts missing padding and embedded whitespace; the model refuses both.
- `toLowerCase`/`toUpperCase` are modelled on ASCII letters only. String lengths count code points, not UTF-16 code units.
- `JSON.parse`/`JSON.stringify` are not modelled: parsed values are inputs (`Vault.Parsed`, the sandbox's `parsed`). The offline body is the literal JSON text.
- URL parsing is an input `Option<Url>` (hostname and pathname already split). `new URL` itself is not modelled.
- The service worker's install handler (pre-caching the static asset list) is not modelled. A `cache.put` that fails is not modelled either.
- The chat page's scroll effect is not modelled, and neither is the chat SDK session it resets. The assistant call is an input.
- Vault export, "launch" navigation and the active-blueprint setter are not modelled. They only hand data to other views.
- `Vault.VaultPage.Load`: the order of Dexie's `toArray()` is an input. The model requires only that the listing holds the table's records.
- The sandbox's `useEffect` that pre-fills the spec with `JSON.stringify(activeBlueprint)` is not modelled. A non-blueprint JSON value accepted by `JSON.parse` is modelled as `parsed == None`.
- `GeminiService.DecodeAudioData`: the browser's limit on channel count (32) and its sample-rate range are folded into `BufferShapeSupported`, not given as constants.
- `LiveArchitect.ChunkDuration`: the duration is the sample count over 24000, with 24000 Hz mono as the source calls it. Other rates are not modelled.
- `SpeechLab.BufferToWav`: requires at least one channel. `getChannelData(0)` throws otherwise, and the speech handler always passes one.
- `Comparator.BenchmarkRecord`: the platform is one of the ten known platforms. An id outside that list is not modelled.
- `Generator.Validation`: numbers are exact reals, so the progress bar's double rounding (`11 / 20 * 100` is `55.00000000000001` in JavaScript) is not modelled.

## Findings

| source | as written | input that shows it | evidently intended | confidence | as-written member | corrected member |
|---|---|---|---|---|---|---|
| views/LiveArchitectView.tsx:89 | the audio callback tests `isMuted` captured when the session started; toggling mute later (line 214) does not reach it | start unmuted, press mute: frames keep being sent; start muted, unmute: nothing is ever sent | send a frame exactly when the microphone is not muted now | high, not executed | LiveArchitect.LiveSession.AudioProcess | LiveArchitect.LiveSession.AudioProcessIntended |
| sw.js:83 | `caches.match('index.html') \|\| caches.match('./')`: the first operand is a Promise, always truthy, so the second lookup never runs | offline navigation with only "./" cached: the reply resolves to `undefined`, while the corrected handler answers the shell (`NavigationFallbackDiffers`) | fall back to "./" when "index.html" is not cached | high, not executed | ServiceWorker.Worker.HandleFetch | ServiceWorker.Worker.HandleFetchIntended |
