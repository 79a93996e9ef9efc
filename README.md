# A verified model of the n8n chat front-end's client logic

The repository is a Next.js chat front-end. It talks to an n8n workflow
through a webhook, by typed messages and by recorded voice. This project
models in Dafny the parts of its client code that hold logic:

- **The recording hook** (`useAudioRecorder`, module `AudioRecorder`). It
  covers start, the chunk buffer, stop and its asynchronous payload, and
  reset. The browser is a sequence of explicit events: the microphone answer,
  each chunk, the recorder's `stop` event and the reader's `loadend`.
- **The two voice dialogs.**
  - The current one is module `AudioDialog`. It has the processing state, the
    auto-play guard, the reset on close, the header texts and the view
    priority.
  - The older one is module `LegacyAudioDialog`. It has its own recorder
    with `recordedAudio`/`audioBlob`, playback, re-record and send.
- **The demo chat page** (module `HomePage`): a message list with a loading
  placeholder.
- **The session store** over `localStorage` (module `ClientStorage`).
  - `app/lib/client-storage.ts` and `src/lib/utils.ts` hold the same five
    functions. The model cites the former's lines; `src/lib/utils.ts:32-97`
    is the same code.
  - The webhook client of `src/lib/utils.ts` is module `Webhook`.
- **Small pure functions.**
  - Markdown newline normalisation (`MarkdownMessage`).
  - The sidebar's relative time label and its delete button (`ChatListItem`).
  - The prompt box's `cn`, submit rules, tool lookup, file picking and height
    clamp (`PromptInput`).
  - The audio player's time label, data URL and play/pause flag
    (`AudioPlayer`).
- **Shared modules.** `ChatTypes` holds the data types of
  `app/features/chat/types.ts`. `Text` holds the string helpers: digits,
  `padStart`, `split`/`join`, `trim` and `split(',')[1]`. `Wrappers` holds
  `Option`/`Result`.

How the stateful pieces are modelled:

- Each React component or hook is a `class`. Its fields are the component's
  state and refs.
- Each class has a `State()` snapshot. Every method ensures that the new
  snapshot is a pure step function of the old one.
- The properties are proved as lemmas about those step functions.
- A render with new props is one step, `AfterRender`. After it, each effect
  runs only when one of its dependencies changed, in declaration order.
- Browser outcomes are parameters. These are whether the microphone is
  granted, whether an `<audio>` element is mounted, and whether `play()`
  resolves. So are the clock (`Date.now()`), the UUID, the webhook endpoint
  and the network's answer.

## Model

| member | source | states |
|---|---|---|
| `AudioRecorder.InitialState` | app/hooks/use-audio-recorder.ts:11-13 | The hook starts not recording, with an empty buffer and no recorder, in a valid state. |
| `AudioRecorder.AfterStart` | app/hooks/use-audio-recorder.ts:15-34 | A granted start empties the buffer, makes a recorder on a fresh stream, makes that stream live and sets `isRecording`. A refused start changes nothing. The step keeps the state valid. |
| `AudioRecorder.StartError` | app/hooks/use-audio-recorder.ts:30-33 | An error is raised exactly when the microphone is refused, and it carries the fixed permission message. |
| `AudioRecorder.AfterData` | app/hooks/use-audio-recorder.ts:22-26 | With a recorder, a chunk of size greater than zero is appended at the end of the buffer. A zero-size chunk is dropped. Nothing else changes. |
| `AudioRecorder.AfterStop` | app/hooks/use-audio-recorder.ts:36-69 | Without a recorder, or when not recording, nothing changes. Otherwise `isRecording` becomes false and a stop is pending on the recorder's stream. Nothing else changes. |
| `AudioRecorder.StopResultOf` | app/hooks/use-audio-recorder.ts:37-46 | The answer is null at once exactly when there is no recorder or it is not recording. Otherwise it is a promise tied to the current recorder's stream. |
| `AudioRecorder.AfterRecorderStop` | app/hooks/use-audio-recorder.ts:48-51 | The recorder's `stop` event builds the blob from the buffered chunks, in order, and starts reading it. It has no effect on a stream with no pending stop. |
| `AudioRecorder.AfterLoadEnd` | app/hooks/use-audio-recorder.ts:52-61 | With a data URL, the reader's `loadend` stops the stream's tracks (the stream leaves the live set) and ends the stop. With a `null` result, `split` throws first: the tracks stay live and the stop is stuck in `ReadFailed`. Everything else is unchanged. |
| `AudioRecorder.LoadEndValue` | app/hooks/use-audio-recorder.ts:53-61 | The promise is settled exactly when a blob is being read for that stream and the read gave a data URL. Its value is `split(',')[1]` of that URL. A `null` result settles nothing. |
| `AudioRecorder.AfterReset` | app/hooks/use-audio-recorder.ts:71-74 | Reset clears `isRecording` and empties the buffer. Nothing else changes; the recorder stays in its ref. |
| `AudioRecorder.NonEmpty` | app/hooks/use-audio-recorder.ts:23 | The filtered chunks are no more than the input, and all of them are non-empty. |
| `AudioRecorder.FeedAppendsNonEmpty` | app/hooks/use-audio-recorder.ts:22-26 | With a recorder in place, a run of chunks appends exactly its non-empty chunks, in arrival order, and changes nothing else. |
| `AudioRecorder.FeedWithoutRecorder` | app/hooks/use-audio-recorder.ts:20-22 | Before any recorder exists, no chunk is collected. |
| `AudioRecorder.NonEmptyKeepsCounts` | app/hooks/use-audio-recorder.ts:23-24 | Every non-empty chunk is kept as many times as it occurs. |
| `AudioRecorder.ConcatNonEmpty` | app/hooks/use-audio-recorder.ts:49 | Dropping the zero-size chunks does not change the bytes of the blob. |
| `AudioRecorder.StartRefused` | app/hooks/use-audio-recorder.ts:30-33 | A refused microphone raises the permission message and leaves the whole state as it was, `isRecording` included. |
| `AudioRecorder.StopAfterReset` | app/hooks/use-audio-recorder.ts:37-39 | A stop right after reset answers null and changes nothing. |
| `AudioRecorder.StopCycle` | app/hooks/use-audio-recorder.ts:41-68 | A stop while recording gives a pending promise and clears `isRecording`. The blob is the buffered chunks. The tracks are stopped before the promise settles with `split(',')[1]` of the data URL. |
| `AudioRecorder.RecordOnce` | app/hooks/use-audio-recorder.ts:15-69 | Start, a run of chunks and a stop give a blob of exactly the run's non-empty chunks, in order. For a data URL `prefix,payload` with no other comma, the promise settles with exactly `payload`. |
| `AudioRecorder.Recorder.constructor` | app/hooks/use-audio-recorder.ts:11-13 | A new hook instance is in the initial state. |
| `AudioRecorder.Recorder.StartRecording` | app/hooks/use-audio-recorder.ts:15-34 | The new state is `AfterStart` of the old one, and the error returned is `StartError`. |
| `AudioRecorder.Recorder.OnDataAvailable` | app/hooks/use-audio-recorder.ts:22-26 | The new state is `AfterData` of the old one. |
| `AudioRecorder.Recorder.StopRecording` | app/hooks/use-audio-recorder.ts:36-69 | The new state is `AfterStop` of the old one, and the result is `StopResultOf` the old one. |
| `AudioRecorder.Recorder.OnRecorderStop` | app/hooks/use-audio-recorder.ts:48-64 | The new state is `AfterRecorderStop` of the old one. |
| `AudioRecorder.Recorder.OnReaderLoadEnd` | app/hooks/use-audio-recorder.ts:52-62 | The new state is `AfterLoadEnd` of the old one and the reader's result, and the settled value is `LoadEndValue`. |
| `AudioRecorder.FailedReadNeverSettles` | app/hooks/use-audio-recorder.ts:52-61 | A `null` result settles nothing and leaves the tracks live. No later `loadend` for that stream changes the stuck stop or settles it. |
| `AudioRecorder.Recorder.ResetRecording` | app/hooks/use-audio-recorder.ts:71-74 | The new state is `AfterReset` of the old one. |
| `AudioDialog.AudioUrl` | app/components/chat/audio-dialog/audio-dialog.tsx:133 | The URL is the prefix `data:audio/webm;base64,` followed by exactly the payload. |
| `AudioDialog.AfterPlay` | app/components/chat/audio-dialog/audio-dialog.tsx:131-138 | With a truthy payload and a mounted element, the payload's URL is played and `isPlayingAI` is set. Otherwise nothing changes. Only the flag and the play log ever change. |
| `AudioDialog.AfterAutoPlay` | app/components/chat/audio-dialog/audio-dialog.tsx:159-166 | When the guard fires (open, truthy payload, different from the last auto-played one), processing is cleared and the payload is remembered. With a mounted element the payload is played and `isPlayingAI` is set. Without one nothing plays and `isPlayingAI` is unchanged. When the guard does not fire nothing changes. |
| `AudioDialog.AfterClose` | app/components/chat/audio-dialog/audio-dialog.tsx:149-156 | Closing resets the recording, clears `isPlayingAI` and `isProcessing`, and forgets the last auto-played payload. |
| `AudioDialog.Mount` | app/components/chat/audio-dialog/audio-dialog.tsx:107-112 | On the first render both effects run once. Playback starts exactly when the dialog is open, the payload is truthy and the element is mounted. |
| `AudioDialog.AfterStopSettled` | app/components/chat/audio-dialog/audio-dialog.tsx:122-129 | A truthy payload enters the processing state and changes nothing else. A null or empty payload does nothing. |
| `AudioDialog.SentPayload` | app/components/chat/audio-dialog/audio-dialog.tsx:124-125 | A payload is sent exactly when it is truthy, and what is sent is that payload. |
| `AudioDialog.AfterEnded` | app/components/chat/audio-dialog/audio-dialog.tsx:140-147 | The end of playback clears both `isPlayingAI` and `isProcessing` and changes nothing else. |
| `AudioDialog.Title` | app/components/chat/audio-dialog/audio-dialog.tsx:32 | Each of the three titles is shown exactly under its condition: AI audio first, then processing, then the default. |
| `AudioDialog.Subtitle` | app/components/chat/audio-dialog/audio-dialog.tsx:35-41 | Each of the four lines is shown exactly under its condition: AI audio, then processing, then recording, then idle. |
| `AudioDialog.CenterControl` | app/components/chat/audio-dialog/audio-dialog.tsx:178-194 | The spinner shows exactly when processing. The playback button shows when not processing with a payload, disabled while playing. Otherwise the record button shows, and its click stops while recording and starts otherwise. |
| `AudioDialog.AutoPlayIff` | app/components/chat/audio-dialog/audio-dialog.tsx:159-166 | A render plays something exactly when a dependency changed, the dialog is open, the payload is truthy and new to the guard, and the element is mounted. In that case it plays exactly that payload's URL. |
| `AudioDialog.DeliveredOncePlaysOnce` | app/components/chat/audio-dialog/audio-dialog.tsx:162-164 | While open, delivering one payload any number of times (with clears in between) plays it at most once. It is never played again once it is the remembered payload. |
| `AudioDialog.ReturningPayloadReplays` | app/components/chat/audio-dialog/audio-dialog.tsx:162 | Delivering A, then B, then A plays B and then A again: the guard remembers only the last payload. |
| `AudioDialog.CloseResets` | app/components/chat/audio-dialog/audio-dialog.tsx:149-156 | A render that closes the dialog resets the recording, clears both flags and the guard, and plays nothing. |
| `AudioDialog.ReopenReplays` | app/components/chat/audio-dialog/audio-dialog.tsx:154 | After a close, reopening with the same payload plays it again. |
| `AudioDialog.FullTurn` | app/components/chat/audio-dialog/audio-dialog.tsx:122-194 | A whole turn: the payload is sent and the spinner shows. The answer arrives, plays and shows the disabled playback button with the AI title. Its end re-enables the button. Clearing it brings back the record button. |
| `AudioDialog.Dialog.constructor` | app/components/chat/audio-dialog/audio-dialog.tsx:107-112 | A new dialog is in the state `Mount` gives. |
| `AudioDialog.Dialog.PlayAIAudio` | app/components/chat/audio-dialog/audio-dialog.tsx:131-138 | The new state is `AfterPlay` of the old one. |
| `AudioDialog.Dialog.AutoPlayEffect` | app/components/chat/audio-dialog/audio-dialog.tsx:159-166 | The new state is `AfterAutoPlay` of the old one. |
| `AudioDialog.Dialog.CloseEffect` | app/components/chat/audio-dialog/audio-dialog.tsx:149-156 | The new state is `AfterClose` of the old one. |
| `AudioDialog.Dialog.Render` | app/components/chat/audio-dialog/audio-dialog.tsx:149-166 | The new state is `AfterRender` of the old one with the new props. |
| `AudioDialog.Dialog.HandleStartRecording` | app/components/chat/audio-dialog/audio-dialog.tsx:114-120 | The recorder takes its start step, and the alert shown is the hook's error message. |
| `AudioDialog.Dialog.HandleStopRecording` | app/components/chat/audio-dialog/audio-dialog.tsx:122-123 | The recorder takes its stop step, and the result is the hook's answer. |
| `AudioDialog.Dialog.OnStopSettled` | app/components/chat/audio-dialog/audio-dialog.tsx:123-129 | The new state is `AfterStopSettled`, and what is sent is `SentPayload`. |
| `AudioDialog.Dialog.HandleAIAudioEnded` | app/components/chat/audio-dialog/audio-dialog.tsx:140-147 | The new state is `AfterEnded`, and the parent is notified exactly when it passed a callback. |
| `LegacyAudioDialog.Initial` | src/components/audio-dialog/audio-dialog.tsx:95-103 | The dialog starts not recording, with no recording and no blob, in a valid state. |
| `LegacyAudioDialog.AfterStartRecording` | src/components/audio-dialog/audio-dialog.tsx:105-139 | A granted start empties the buffer, makes a recorder on a fresh live stream and sets `isRecording`. It keeps the previous recording and changes no other field. A refused start changes nothing. The step keeps the state valid. |
| `LegacyAudioDialog.StartAlert` | src/components/audio-dialog/audio-dialog.tsx:135-138 | There is an alert exactly when the microphone is refused, and it carries the fixed permission message. |
| `LegacyAudioDialog.AfterData` | src/components/audio-dialog/audio-dialog.tsx:112-116 | A non-empty chunk is appended at the end; a zero-size chunk is dropped. Nothing else changes. |
| `LegacyAudioDialog.AfterStopRecording` | src/components/audio-dialog/audio-dialog.tsx:141-146 | The step acts only with a recorder while recording: it stops the recorder and clears `isRecording`. Afterwards `isRecording` is false in every valid state. |
| `LegacyAudioDialog.AfterRecorderStop` | src/components/audio-dialog/audio-dialog.tsx:118-131 | The `stop` event sets `audioBlob` to the buffered chunks in order, starts the reader and stops the stream's tracks. |
| `LegacyAudioDialog.AfterReaderLoadEnd` | src/components/audio-dialog/audio-dialog.tsx:123-126 | The reader's `loadend` makes its result the recording: the whole data URL, or nothing when the result is `null`. |
| `LegacyAudioDialog.AfterReset` | src/components/audio-dialog/audio-dialog.tsx:179-185 | Reset clears `isRecording`, `recordedAudio`, `audioBlob`, `isPlayingAI` and the buffer, and nothing else. |
| `LegacyAudioDialog.AfterSend` | src/components/audio-dialog/audio-dialog.tsx:169-177 | Without a recording nothing happens; with one, the dialog is reset. |
| `LegacyAudioDialog.SentBySend` | src/components/audio-dialog/audio-dialog.tsx:170-173 | Something is sent exactly when there is a recording, and what is sent is `split(',')[1]` of its data URL. |
| `LegacyAudioDialog.AfterPlayAI` | src/components/audio-dialog/audio-dialog.tsx:156-163 | `isPlayingAI` is set, and the payload's URL played, exactly with a truthy payload and a mounted element. Otherwise nothing changes. |
| `LegacyAudioDialog.AfterAIEnded` | src/components/audio-dialog/audio-dialog.tsx:165-167 | The ended event clears `isPlayingAI` and nothing else. |
| `LegacyAudioDialog.AfterPlayRecorded` | src/components/audio-dialog/audio-dialog.tsx:148-154 | The blob is played exactly when there is one and the element is mounted. Otherwise nothing changes. |
| `LegacyAudioDialog.AfterRender` | src/components/audio-dialog/audio-dialog.tsx:187-191 | A render that closes the dialog resets it. Any other render only takes the new props. The step keeps the state valid. |
| `LegacyAudioDialog.MicClickHandler` | src/components/audio-dialog/audio-dialog.tsx:213 | The circle has no handler with AI audio; otherwise it stops while recording and starts while idle. Each clause is an iff. |
| `LegacyAudioDialog.Circle` | src/components/audio-dialog/audio-dialog.tsx:214-245 | The circle shows the AI play button (disabled while playing), the stop indicator, the recording's play button or the microphone, each exactly under its condition. |
| `LegacyAudioDialog.Actions` | src/components/audio-dialog/audio-dialog.tsx:261-288 | The action bar shows "Cerrar" with AI audio. Otherwise it shows "Regrabar"/"Enviar" with a recording, and otherwise nothing; each is an iff. |
| `LegacyAudioDialog.Title` | src/components/audio-dialog/audio-dialog.tsx:198-200 | The AI title shows exactly with AI audio, and the recording title otherwise. |
| `LegacyAudioDialog.Subtitle` | src/components/audio-dialog/audio-dialog.tsx:201-209 | Each of the four lines shows exactly under its condition: AI audio, then recording, then a recording made, then idle. |
| `LegacyAudioDialog.ClickRecordingPlay` | src/components/audio-dialog/audio-dialog.tsx:233-240 | A click on the recording's play button plays the blob. It leaves the recording flag, the buffer, the live streams, the recording and the blob as they were. |
| `LegacyAudioDialog.FeedAppendsNonEmpty` | src/components/audio-dialog/audio-dialog.tsx:112-116 | With a recorder, a run of chunks appends exactly its non-empty chunks, in order, and changes nothing else. |
| `LegacyAudioDialog.RecordAndSend` | src/components/audio-dialog/audio-dialog.tsx:105-177 | A start, chunks, a stop and the `stop` event give a blob of exactly the non-empty chunks, with the tracks stopped. The data URL `prefix,payload` becomes the recording and shows "Regrabar"/"Enviar". Sending sends exactly `payload` and clears the recording. |
| `LegacyAudioDialog.FailedReadSendsNothing` | src/components/audio-dialog/audio-dialog.tsx:123-126 | A `null` result drops the recording, even one kept from before. Then only "Cerrar" (with an AI reply) or no buttons show, and sending sends nothing and changes nothing. |
| `LegacyAudioDialog.CloseResets` | src/components/audio-dialog/audio-dialog.tsx:187-191 | Closing clears the flag, the recording, the blob, the AI flag and the buffer. |
| `LegacyAudioDialog.CloseWhileRecordingKeepsStream` | src/components/audio-dialog/audio-dialog.tsx:179-191 | Closing while recording does not stop the recorder. Its stream stays live and its next chunk is still collected. |
| `LegacyAudioDialog.PlayRecordingStartsRecording` | src/components/audio-dialog/audio-dialog.tsx:212-240 | As written, the recording's play button plays the blob and also starts a new recording. The corrected click only plays. |
| `LegacyAudioDialog.Dialog.constructor` | src/components/audio-dialog/audio-dialog.tsx:95-103 | A new dialog is in the `Initial` state. |
| `LegacyAudioDialog.Dialog.StartRecording` | src/components/audio-dialog/audio-dialog.tsx:105-139 | The new state is `AfterStartRecording`, and the alert is `StartAlert`. |
| `LegacyAudioDialog.Dialog.OnDataAvailable` | src/components/audio-dialog/audio-dialog.tsx:112-116 | The new state is `AfterData`. |
| `LegacyAudioDialog.Dialog.StopRecording` | src/components/audio-dialog/audio-dialog.tsx:141-146 | The new state is `AfterStopRecording`. |
| `LegacyAudioDialog.Dialog.OnRecorderStop` | src/components/audio-dialog/audio-dialog.tsx:118-131 | The new state is `AfterRecorderStop`. |
| `LegacyAudioDialog.Dialog.OnReaderLoadEnd` | src/components/audio-dialog/audio-dialog.tsx:123-126 | The new state is `AfterReaderLoadEnd` of the old one and the reader's result. |
| `LegacyAudioDialog.Dialog.ResetRecording` | src/components/audio-dialog/audio-dialog.tsx:179-185 | The new state is `AfterReset`. |
| `LegacyAudioDialog.Dialog.HandleSend` | src/components/audio-dialog/audio-dialog.tsx:169-177 | The new state is `AfterSend`, and what is sent is `SentBySend`. |
| `LegacyAudioDialog.Dialog.PlayAIAudio` | src/components/audio-dialog/audio-dialog.tsx:156-163 | The new state is `AfterPlayAI`. |
| `LegacyAudioDialog.Dialog.HandleAIAudioEnded` | src/components/audio-dialog/audio-dialog.tsx:165-167 | The new state is `AfterAIEnded`. |
| `LegacyAudioDialog.Dialog.PlayRecordedAudio` | src/components/audio-dialog/audio-dialog.tsx:148-154 | The new state is `AfterPlayRecorded`. |
| `LegacyAudioDialog.Dialog.Render` | src/components/audio-dialog/audio-dialog.tsx:187-191 | The new state is `AfterRender` with the new props. |
| `HomePage.RemoveLoading` | src/app/page.tsx:36 | The filtered list is no longer than the input, holds no loading message, and holds only messages of the input. |
| `HomePage.AfterSend` | src/app/page.tsx:18-33 | A send grows the list by exactly two and keeps the earlier messages in order. Then come the user's message with its content and a non-user loading message with empty content, with different ids. Each id is built from its own reading of `Date.now()`. |
| `HomePage.AfterTimer` | src/app/page.tsx:35-44 | After the callback the last message is the fixed non-user reply and no loading message remains. |
| `HomePage.WelcomeOnlyAtStart` | src/app/page.tsx:16-49 | The welcome view shows exactly while the list is empty, and the empty run leaves the list as it was. After any non-empty run of sends and reply timers, in any order, the message list is shown instead, so the welcome view never comes back. |
| `HomePage.RemoveLoadingAppend` | src/app/page.tsx:36 | Filtering a concatenation is the concatenation of the filtered parts. |
| `HomePage.RemoveLoadingAround` | src/app/page.tsx:36 | The filter keeps a non-loading message in its place among the rest and drops a loading one. |
| `HomePage.RemoveLoadingIdentityIff` | src/app/page.tsx:36 | The filter leaves the list unchanged exactly when it holds no loading message. |
| `HomePage.RemoveLoadingCounts` | src/app/page.tsx:36 | Every non-loading message is kept as often as it occurs, and every loading one is dropped. |
| `HomePage.RemoveLoadingAlternating` | src/app/page.tsx:36 | Two user messages, each followed by its placeholder, filter down to the two user messages in order. |
| `HomePage.TwoSendsTwoCallbacks` | src/app/page.tsx:35-44 | After two sends, the first callback removes both placeholders, not only its own, and appends one reply. The second callback only appends its reply. |
| `HomePage.Home.HandleSendMessage` | src/app/page.tsx:18-33 | The new list is `AfterSend` of the old one, with the two clock readings passed in. |
| `HomePage.Home.OnReplyTimer` | src/app/page.tsx:35-44 | The new list is `AfterTimer` of the old one. |
| `ClientStorage.RestoreMessage` | app/lib/client-storage.ts:19-22 | The timestamp is rebuilt from its text. Every other field is kept, so serialising the result gives back the record. |
| `ClientStorage.RestoreSession` | app/lib/client-storage.ts:15-23 | `createdAt`, `updatedAt` and every message timestamp are rebuilt. The messages keep their number and order, and serialising gives back the record. |
| `ClientStorage.RestoreSessions` | app/lib/client-storage.ts:15 | Loading keeps the number and order of the sessions, and each one is restored from its record. |
| `ClientStorage.LoadFailsSoft` | app/lib/client-storage.ts:10-26 | An absent key or a text that does not parse as a session list loads as the empty list. |
| `ClientStorage.LoadSaved` | app/lib/client-storage.ts:9-33 | Loading what save wrote gives back the same sessions, in the same order, with the same messages. |
| `ClientStorage.SessionToJsonInjective` | app/lib/client-storage.ts:33 | Different sessions are written as different records, so nothing is lost on save. |
| `ClientStorage.CreateNewSession` | app/lib/client-storage.ts:39-50 | A new session has the given id, the title "Nueva conversación", `createdAt` equal to `updatedAt`, and no messages. |
| `ClientStorage.BrowserStorage.constructor` | app/lib/client-storage.ts:5-27 | The storage starts with the given window flag and items. The items may already hold a session list that an earlier visit saved under `chatSessions`, which getChatSessions then restores. |
| `ClientStorage.BrowserStorage.GetChatSessions` | app/lib/client-storage.ts:5-27 | The result is the empty list without a window, on a read failure, when the key is absent, or when the text is not a session list. Otherwise it is the restored list. |
| `ClientStorage.BrowserStorage.SaveChatSessions` | app/lib/client-storage.ts:29-37 | Without a window, or when the write fails, nothing changes. Otherwise only `chatSessions` is written, and loading then gives back `sessions`. |
| `ClientStorage.BrowserStorage.GetCurrentSessionId` | app/lib/client-storage.ts:52-60 | There is a value exactly with a window, no read failure and the key present, and it is the stored text. |
| `ClientStorage.BrowserStorage.SetCurrentSessionId` | app/lib/client-storage.ts:62-70 | Without a window, or when the write fails, nothing changes. Otherwise a get returns the id set. The stored sessions are unchanged either way. |
| `Webhook.BuildRequest` | src/lib/utils.ts:113-131 | A missing endpoint is a configuration error with the fixed message, before any request is built. Otherwise it is a JSON POST to the endpoint whose body is `{session_id, type, data}`, with `type` the type's text and `data` the input. |
| `Webhook.SendToN8NWebhook` | src/lib/utils.ts:108-138 | A missing endpoint is the configuration error whatever the network does. A rejected fetch is a network error. A non-2xx status is the HTTP error message with that status. A 2xx answer is its JSON. |
| `Webhook.HttpErrorCarriesStatus` | src/lib/utils.ts:134 | The HTTP error message is the fixed prefix followed by the decimal digits of the status, which read back as the status. |
| `Webhook.NotConfiguredIgnoresNetwork` | src/lib/utils.ts:115-117 | With no endpoint, the result does not depend on the network. |
| `Webhook.BodyTypeNamesType` | src/lib/utils.ts:119-123 | The body's `type` is "audio" exactly for the audio type and "message" exactly for the message type. |
| `Webhook.BodyDataIsInput` | src/lib/utils.ts:119-123 | The body's `data` is the input for the text and the audio types alike. |
| `MarkdownMessage.ReplacePairNotLonger` | app/components/chat/markdown-message.tsx:15 | A global two-character replace by one character never lengthens the text. |
| `MarkdownMessage.ReplaceMatch` | app/components/chat/markdown-message.tsx:15 | A match at the front of the text becomes the replacement character, and the scan resumes after both matched characters. |
| `MarkdownMessage.ReplaceNoMatch` | app/components/chat/markdown-message.tsx:15 | A first character that does not start a match is kept, and the scan resumes at the next character. |
| `MarkdownMessage.ReplacePairChanges` | app/components/chat/markdown-message.tsx:15 | A replace shortens the text exactly when the pair occurs; without the pair the text is unchanged. |
| `MarkdownMessage.ReplacePairAppend` | app/components/chat/markdown-message.tsx:15 | With no pair across the join, replacing in a concatenation is replacing in each part. |
| `MarkdownMessage.ReplacePairAt` | app/components/chat/markdown-message.tsx:15 | An occurrence of the pair becomes the single replacement character between the replaced text on either side. |
| `MarkdownMessage.NormalizeEmpty` | app/components/chat/markdown-message.tsx:13 | Empty content normalises to the empty string. |
| `MarkdownMessage.NormalizeLength` | app/components/chat/markdown-message.tsx:15 | The output is never longer than the input. It is shorter exactly when a CR-LF or a backslash-n occurs, and the same text otherwise. |
| `MarkdownMessage.NormalizeIsTwoPasses` | app/components/chat/markdown-message.tsx:15 | Normalising replaces every CR-LF by LF first and then every backslash-n by LF. |
| `MarkdownMessage.NormalizeCrLf` | app/components/chat/markdown-message.tsx:15 | A CR-LF becomes a single LF between the normal forms of the text on either side. |
| `MarkdownMessage.NormalizeEscapedNewline` | app/components/chat/markdown-message.tsx:15 | A backslash followed by `n` becomes LF between the normal forms of the text on either side. |
| `MarkdownMessage.NormalizeMayYieldCrLf` | app/components/chat/markdown-message.tsx:15 | A CR before an escaped newline comes out as CR-LF, so the output can hold CR-LF and normalising twice differs from normalising once. |
| `ChatListItem.ClassifyRanges` | app/components/common/sidebar/chat-list-item.tsx:14-27 | Each label is an iff over the difference in milliseconds. Under a minute, future dates included, is "Ahora". 1-59 minutes is "Hace N min" and 1-23 hours "Hace N h". One day is "Ayer" and 2-6 days "Hace N días". Seven days or more is the locale date. N is the floor division. |
| `ChatListItem.FloorBelow` | app/components/common/sidebar/chat-list-item.tsx:17-19 | A floor division is below a bound exactly when the dividend is below the bound times the divisor. |
| `ChatListItem.FloorMonotone` | app/components/common/sidebar/chat-list-item.tsx:17-19 | Floor division by a positive divisor is monotone. |
| `ChatListItem.ClassifyMonotone` | app/components/common/sidebar/chat-list-item.tsx:15-27 | An older date never gets a more recent bucket, and within one bucket the count never decreases. |
| `ChatListItem.RenderShowsCount` | app/components/common/sidebar/chat-list-item.tsx:22-25 | The number in "Hace N min", "Hace N h" and "Hace N días" reads back as N. |
| `ChatListItem.Click` | app/components/common/sidebar/chat-list-item.tsx:30-95 | A delete click passes exactly this session's id and never selects. An item click only selects. A click causes at most one event. |
| `PromptInput.ClassText` | app/components/chat/prompt-input/prompt-input.tsx:19-20 | A truthy class value has non-empty text. |
| `PromptInput.TruthyTexts` | app/components/chat/prompt-input/prompt-input.tsx:20 | Filtering keeps no more than the inputs, and none of what it keeps is empty. |
| `PromptInput.CnEmptyIff` | app/components/chat/prompt-input/prompt-input.tsx:20 | `cn` gives the empty string exactly when every input is falsy. |
| `PromptInput.TruthyTextsEmptyIff` | app/components/chat/prompt-input/prompt-input.tsx:20 | Filtering leaves nothing exactly when every input is falsy. |
| `PromptInput.CnSplits` | app/components/chat/prompt-input/prompt-input.tsx:20 | When some input is truthy and none holds a space, splitting the result at spaces gives back the truthy inputs, in order. |
| `PromptInput.Find` | app/components/chat/prompt-input/prompt-input.tsx:328 | A found tool is in the list and has the id asked for. When none is found, no tool has that id. |
| `PromptInput.FindDistinct` | app/components/chat/prompt-input/prompt-input.tsx:328 | In a list with distinct ids, looking up a tool's id finds that tool. |
| `PromptInput.ToolsListDistinct` | app/components/chat/prompt-input/prompt-input.tsx:117-123 | The five tools have distinct ids. |
| `PromptInput.ActiveTool` | app/components/chat/prompt-input/prompt-input.tsx:328 | No tool is active without a truthy selection. An active tool is from the list and has the selected id. |
| `PromptInput.ActiveToolOfList` | app/components/chat/prompt-input/prompt-input.tsx:328 | Selecting a listed tool makes it the one active, and an id that is not listed activates none. |
| `PromptInput.TextareaHeight` | app/components/chat/prompt-input/prompt-input.tsx:299 | The height is the scroll height clamped to at most 200. |
| `PromptInput.HasValue` | app/components/chat/prompt-input/prompt-input.tsx:327 | The send button is enabled exactly when the text is not all whitespace or an image preview is present. |
| `PromptInput.Submitted` | app/components/chat/prompt-input/prompt-input.tsx:312-315 | Text is submitted exactly when the trimmed text is non-empty and a handler exists, and it is the trimmed text. |
| `PromptInput.ImageAloneIsNotSent` | app/components/chat/prompt-input/prompt-input.tsx:314-327 | An image with blank text enables the button, but submit sends nothing. |
| `PromptInput.SubmittedIsTrimmed` | app/components/chat/prompt-input/prompt-input.tsx:315 | The submitted text has no surrounding whitespace: trimming it again changes nothing. |
| `PromptInput.PromptBox.constructor` | app/components/chat/prompt-input/prompt-input.tsx:291-294 | The box starts with empty text, no image, no tool and the popover closed. |
| `PromptInput.PromptBox.HandleInputChange` | app/components/chat/prompt-input/prompt-input.tsx:300 | The text becomes the new value, and every other field is unchanged. |
| `PromptInput.PromptBox.HandleSubmit` | app/components/chat/prompt-input/prompt-input.tsx:312-319 | The submitted text is `Submitted` of the text. After a submit the text is empty and the image is cleared; otherwise both are unchanged. The rest is unchanged. |
| `PromptInput.PromptBox.HandleKeyDown` | app/components/chat/prompt-input/prompt-input.tsx:302-307 | Enter without Shift prevents the default and submits. Any other key, Shift+Enter included, changes nothing. The tool, the file input, the pending image reads and the popover are never changed. |
| `PromptInput.PromptBox.HandleFileChange` | app/components/chat/prompt-input/prompt-input.tsx:309 | Only a file whose type starts with `image/` starts a read, and the file input is cleared in every case. The text, the preview, the tool and the popover are unchanged. |
| `PromptInput.PromptBox.OnImageLoadEnd` | app/components/chat/prompt-input/prompt-input.tsx:309 | A finished read of a picked image sets the preview to `reader.result`: the data URL it read, or none when the read failed. Without a read in flight nothing changes. |
| `PromptInput.PromptBox.HandleRemoveImage` | app/components/chat/prompt-input/prompt-input.tsx:310 | The intended click: the preview and the file input are cleared, and the text, the tool and the pending reads are unchanged. |
| `PromptInput.PromptBox.HandleRemoveImageAsWritten` | app/components/chat/prompt-input/prompt-input.tsx:172-178 | The click as written: the image and the file input are cleared, then the form is submitted. The sent text is `Submitted` of the text, and the text is emptied exactly when something is sent. |
| `PromptInput.PromptBox.SelectTool` | app/components/chat/prompt-input/prompt-input.tsx:221 | The tool is selected and the popover closes. |
| `PromptInput.PromptBox.ClearTool` | app/components/chat/prompt-input/prompt-input.tsx:363 | The intended click: the selection is cleared, so no tool is active, and the text and the image are unchanged. |
| `PromptInput.PromptBox.ClearToolAsWritten` | app/components/chat/prompt-input/prompt-input.tsx:363 | The click as written: the selection is cleared, then the form is submitted. The sent text is `Submitted` of the text, and a send empties the text and the image. |
| `PromptInput.ChipClickSubmits` | app/components/chat/prompt-input/prompt-input.tsx:310-332 | With any non-blank text and a tool picked, the chip click as written sends the trimmed text and empties the composer. The intended click keeps the text and only deselects the tool. |
| `PromptInput.RemoveImageClickSubmits` | app/components/chat/prompt-input/prompt-input.tsx:172-178 | With any non-blank text and an image attached, the remove click as written sends the trimmed text and empties the composer. The intended click keeps the text and only drops the image. |
| `AudioPlayer.DataUrlRoundTrip` | src/components/audio-player/audio-player.tsx:32-34 | The player's data URL gives back the base64 payload under `split(',')[1]`. |
| `AudioPlayer.FormatTimeParts` | src/components/audio-player/audio-player.tsx:101-105 | The label is minutes, a colon and exactly two digits of seconds. The two parts read back as `seconds / 60` and `seconds % 60`, and together as the seconds. |
| `AudioPlayer.PaddedSeconds` | src/components/audio-player/audio-player.tsx:104 | Seconds below 60 are padded to exactly two digits with their value kept. |
| `AudioPlayer.FormatTimeInjective` | src/components/audio-player/audio-player.tsx:101-105 | Different whole seconds get different labels. |
| `AudioPlayer.Toggle` | src/components/audio-player/audio-player.tsx:75-91 | Without an element nothing happens. Playing pauses and reports the pause. Paused plays and reports it only when `play()` resolves; otherwise the flag stays false. |
| `AudioPlayer.ToggleTwice` | src/components/audio-player/audio-player.tsx:75-91 | Two successful toggles return to the starting flag and report the two callbacks in order. |
| `AudioPlayer.PlayingOnlyAfterPlay` | src/components/audio-player/audio-player.tsx:83-86 | The flag is set only by a resolved `play()` on a mounted element, which reports the play. |
| `AudioPlayer.Player.constructor` | src/components/audio-player/audio-player.tsx:24-27 | The player starts paused with no URL. |
| `AudioPlayer.Player.OnAudioData` | src/components/audio-player/audio-player.tsx:31-43 | A truthy payload becomes the data URL, and an empty one leaves the URL as it was. |
| `AudioPlayer.Player.ToggleEnabled` | src/components/audio-player/audio-player.tsx:114 | The toggle button is enabled exactly when the URL is truthy. |
| `AudioPlayer.Player.TogglePlay` | src/components/audio-player/audio-player.tsx:75-91 | The new flag and the callbacks are those `Toggle` gives, and the URL is unchanged. |
| `AudioPlayer.Player.HandleEnd` | src/components/audio-player/audio-player.tsx:51-54 | The end clears the flag and reports the end. |
| `AudioPlayer.Player.AutoPlayEffect` | src/components/audio-player/audio-player.tsx:45-65 | With an element, a URL and `autoPlay`, a resolved `play()` sets the flag and reports it. Otherwise nothing changes. |
| `Text.NatToString` | src/app/page.tsx:20 | A number's decimal text is non-empty and all digits, with a leading zero only for zero. |
| `Text.ParseNatToString` | src/app/page.tsx:20 | Reading a number's decimal text back gives the number. |
| `Text.NatToStringInjective` | src/app/page.tsx:20 | Different numbers have different decimal texts. |
| `Text.PadStart` | src/components/audio-player/audio-player.tsx:104 | `padStart` gives at least the width, keeps the text as a suffix and fills the rest with the fill character. |
| `Text.Split` | app/hooks/use-audio-recorder.ts:54 | `split` gives at least one piece, and no piece holds the separator. |
| `Text.JoinSplit` | app/hooks/use-audio-recorder.ts:54 | Joining the pieces of a split gives back the text. |
| `Text.SplitJoin` | app/components/chat/prompt-input/prompt-input.tsx:20 | Splitting a join of separator-free pieces gives back the pieces. |
| `Text.Field1OfPrefixed` | app/hooks/use-audio-recorder.ts:54 | `split(',')[1]` of `prefix,payload` with no other comma is `payload`. |
| `Text.Field1NoComma` | src/components/audio-dialog/audio-dialog.tsx:172 | `split(',')[1]` of a text with no comma is absent. |
| `Text.TrimStart` | app/components/chat/prompt-input/prompt-input.tsx:314 | Trimming the start removes whitespace only, up to the first non-whitespace character. |
| `Text.TrimEnd` | app/components/chat/prompt-input/prompt-input.tsx:314 | Trimming the end removes whitespace only, back to the last non-whitespace character. |
| `Text.TrimEmptyIff` | app/components/chat/prompt-input/prompt-input.tsx:314 | `trim()` gives the empty string exactly when the text is all whitespace. |
| `Text.TrimShape` | app/components/chat/prompt-input/prompt-input.tsx:314 | The trimmed text is a contiguous part of the input that neither starts nor ends with whitespace. |
| `Text.TrimIdempotent` | app/components/chat/prompt-input/prompt-input.tsx:315 | Trimming twice is trimming once. |

## Left out

- JSON and ISO-8601 texts are not modelled character by character. A stored session list is the list of records it stands for, and a date's text is the time value it stands for. So `LoadSaved` states the round trip of `JSON.parse(JSON.stringify(...))` on this abstraction.
- A malformed text under `chatSessions` is a `Text` value, which does not parse as a session list and loads as the empty list. What a well-formed but differently shaped JSON value would give is not modelled.
- `fetch` and `response.json()` are not modelled; the network's answer is a parameter. The `response.ok` range 200-299 stands for the fetch standard's "ok status". `Webhook.SendToN8NWebhook` returns the parsed answer as given and does not check its shape.
- `crypto.randomUUID()`, `new Date()` and `Date.now()` are parameters of the functions that use them.
- Effect scheduling is simplified. A render with new props is one step, and the effects whose dependencies changed run right after it, in order. Stale closures are not modelled: a handler always sees the current state, not the state of the render that made it.
- The recording hook's `stopRecording` closes over `isRecording` (`[isRecording]` dependency); a handler made during an earlier render is not modelled.
- Playback, seeking, `currentTime`, `duration` and their `timeupdate`/`loadedmetadata` listeners use floating-point seconds and are left out. The time label is modelled on whole, non-negative seconds.
- `toLocaleDateString('es-ES')` is not modelled; the label keeps the date's time value instead.
- `URL.createObjectURL` and `URL.revokeObjectURL` are not modelled. A recording's playback is logged by its blob.
- `handleSendAudio` (app/components/chat/prompt-input/prompt-input.tsx:321-325) only forwards its argument and is not modelled. Nor are the image dialog, the popover's open state beyond its closing on a tool choice, and the tooltips.
- In the app dialog, a `play()` that rejects is only logged and `isPlayingAI` is set anyway. The model follows the code here.
- The recording hook's payload is `split(',')[1]` of the data URL. That is the piece between the first and the second comma, or absent when there is no comma; it is not "everything after the first comma". A base64 data URL has one comma, so both readings agree on what a `FileReader` produces.
- AudioDialog.DeliveredOncePlaysOnce: a payload plays at most once only while deliveries carry that one payload. The guard remembers only the last auto-played payload, so A, then B, then A plays A again (`AudioDialog.ReturningPayloadReplays`). "At most once per distinct value" does not hold of the code, so it is not claimed.
- The older dialog's `resetRecording` neither stops a running recorder nor releases its stream (`LegacyAudioDialog.CloseWhileRecordingKeepsStream`). The model follows the code.
- Optional callbacks (`onPlaybackEnded`, `onSubmit`, `onDelete`, `onClick`) are flags saying whether the parent passed one.
- AudioPlayer.Toggle: the events name the callbacks `onPlay` and `onPause` that the player calls. Whether the parent passed them is not modelled, so a callback the parent left out still appears as an event.
- AudioPlayer.Player.HandleEnd: the `EndEvent` is reported whether or not the parent passed `onEnd`.
- Webhook.BuildRequest: the default argument `type = 'message'` of sendToN8NWebhook (src/lib/utils.ts:108-111) is not modelled. The type is always passed, and a call that leaves it out is the call with the message type.
- On a `ChatMessage`, `isLoading` is carried through save and load as an optional field. No operation in the store reads it.

## Findings

| source | as written | input that shows it | evidently intended | confidence | as-written member | corrected member |
|---|---|---|---|---|---|---|
| src/components/audio-dialog/audio-dialog.tsx:212-240 | The recording's play button (line 237) sits inside the circle whose `onClick` (line 213) is `startRecording` when there is no AI audio and no recording in progress. The click is not stopped, so it bubbles and starts a new recording. | A finished recording, no AI audio, the microphone granted: a click on the play button plays the recording and also sets `isRecording`, empties the buffer and opens a new stream (`LegacyAudioDialog.PlayRecordingStartsRecording`) | The play button only plays the recording | medium, not executed | `LegacyAudioDialog.ClickRecordingPlayAsWritten` | `LegacyAudioDialog.ClickRecordingPlay` |
| app/components/chat/prompt-input/prompt-input.tsx:363 | The active tool's chip (line 363) is a `<button>` with no `type` inside the `<form onSubmit={handleSubmit}>` of line 332, so it is a submit button. Its click deselects the tool and then submits the form, which runs handleSubmit (lines 312-319). | Text "hola", a tool picked, the parent passing `onSubmit`: a click on the chip sends "hola" and empties the composer (`PromptInput.ChipClickSubmits`) | The chip only deselects the tool | medium, not executed | `PromptInput.PromptBox.ClearToolAsWritten` | `PromptInput.PromptBox.ClearTool` |
| app/components/chat/prompt-input/prompt-input.tsx:172-178 | The remove-image button has no `type` and sits inside the same form, because the Dialog root renders no element of its own. Its `stopPropagation` (line 310) stops the bubbling but not the submission, so the click also runs handleSubmit. | Text "hola" and an attached image: a click on the remove button sends "hola" and empties the composer (`PromptInput.RemoveImageClickSubmits`) | The button only removes the image | medium, not executed | `PromptInput.PromptBox.HandleRemoveImageAsWritten` | `PromptInput.PromptBox.HandleRemoveImage` |
