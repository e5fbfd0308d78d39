# Consultation recorder: a Dafny model

This project models the client-side core of a consultation recorder. A clinician
records a spoken consultation. The browser slices the audio into five-second
chunks and sends each one, tagged with a session id and a chunk number, to a
remote analysis service. The service's replies are merged into a cumulative
transcript and a structured clinical note (anamnese and clinical reasoning).
The clinician then edits the note and exports it as a 42-line plain-text record.

The model has four parts, one Dafny module each, plus three support modules.

- `AudioCapture` (`audio_recorder.dfy`) models the capture controller `AudioRecorder`:
  - `start` and its three failure points;
  - the `ondataavailable` handler and its chunk numbering 1, 2, 3, …;
  - `stop`;
  - the choice of container format;
  - the stripping of the data-URL prefix;
  - `generateSessionId`.
- `Consultation` (`consultation_recorder.dfy`) models the session orchestrator
  `ConsultationRecorder` as a class. It is a state machine over:
  - the phase (idle, recording, processing, completed);
  - the transcript;
  - the note data;
  - `chunksSent` and the error message;
  - the recorder and session-id refs.
- `AnamneseFormModel` (`anamnese_form.dfy`) models the editable note `AnamneseForm`:
  - the per-field `||` merge of incoming note data;
  - the single-field and hypothesis-slot edits;
  - `generateProntuarioText`.
- `Timer` (`recording_timer.dfy`) models `RecordingTimer`: the seconds counter
  with its tick and reset, and `formatTime`.
- `Webhook` (`webhook.dfy`) holds the request and response shapes of the
  analysis service.
- `Strings` (`strings.dfy`) holds JavaScript's `split` and `join` on one
  separator character, and decimal digits.
- `Wrappers` (`wrappers.dfy`) holds `Option`.

What reaches the model as an input instead of being performed:

- **Asynchronous results.** Each response of the analysis service is an
  `Option<Response>`. `None` stands for a transport failure, a non-success
  status or an unreadable body.
- **Failures in `start`.** Whether `start` throws, and where, is an
  `Option<StartFault>`.
- **Supported formats.** The formats the platform supports are a `set<string>`.
- **Data URLs.** What the `FileReader` produces for a slice is an
  `Option<string>`: the data URL, or `None` when the reader fails.
- **The clock.** The clock reading is an `int`, and the localized date of the
  export footer is a string.
- **Random draws.** The draws of `Math.random` are a stream
  `draws: nat -> Nibble`. Draw `k` is the value of
  `(Math.random() * 16) | 0` at the k-th call.

Each event handler is one atomic step. The order in which steps are applied
is the caller's choice.

## Model

| member | source | states |
|---|---|---|
| AudioCapture.FirstSupportedIndex | src/lib/audioRecorder.ts:102-107 | the position found is a supported entry, and every entry before it is unsupported |
| AudioCapture.FirstSupported | src/lib/audioRecorder.ts:94-111 | the result is `""` exactly when no preference is supported; otherwise it is a supported preference, and no earlier preference is supported |
| AudioCapture.GetSupportedMimeType | src/lib/audioRecorder.ts:94-111 | the probing loop with early return yields the first supported preference of the fixed four-entry list, or `""` |
| AudioCapture.DataUrlPayload | src/lib/audioRecorder.ts:117-120 | `split(',')[1]` is defined exactly when the data URL holds a comma, and it never contains a comma |
| AudioCapture.PayloadAfterFirstComma | src/lib/audioRecorder.ts:118-119 | for a comma-free header and body, the extracted payload is exactly the body |
| AudioCapture.PayloadExample | src/lib/audioRecorder.ts:118-119 | `"data:audio/webm;base64,QUJD"` yields `"QUJD"` |
| AudioCapture.HexDigit | src/lib/audioRecorder.ts:132 | `v.toString(16)` is a lower-case hex digit, and for values 8 to 11 it is a variant digit (8, 9, a or b) |
| AudioCapture.HexValue | src/lib/audioRecorder.ts:132 | it inverts `HexDigit`, and a digit is a variant digit exactly when its value is 8 to 11 |
| AudioCapture.FillTemplate | src/lib/audioRecorder.ts:129-133 | the filled template keeps its length; `x` becomes a hex digit, `y` becomes a variant digit, and every other character is kept |
| AudioCapture.TemplateShape | src/lib/audioRecorder.ts:129 | the template's placeholders sit exactly at the random positions of a version-4 UUID |
| AudioCapture.GenerateSessionId | src/lib/audioRecorder.ts:128-134 | every generated id is a version-4 UUID: 36 characters, dashes at 8, 13, 18 and 23, `4` at 14, a variant digit at 19, hex digits elsewhere |
| AudioCapture.DrawFor | src/lib/audioRecorder.ts:130-132 | for any character that fits a placeholder, some draw produces it |
| AudioCapture.FillDrawsFor | src/lib/audioRecorder.ts:129-133 | drawing the values `DrawsFor` reads off a fitting string makes the template produce that string |
| AudioCapture.EveryUuidV4IsGenerated | src/lib/audioRecorder.ts:128-134 | every lower-case version-4 UUID is the output for some stream of draws, so the generator covers the whole id space |
| AudioCapture.AudioRecorder.constructor | src/lib/audioRecorder.ts:11-19 | a new recorder has no platform recorder, no stream, counter 0 and is not recording |
| AudioCapture.AudioRecorder.Start | src/lib/audioRecorder.ts:21-68 | the fault is rethrown; a refused device changes nothing; a granted device stores the stream; a created recorder resets the counter to 0, raises the flag and carries the preferred format at 128000 bit/s; only a successful start leaves it slicing every 5000 ms |
| AudioCapture.AudioRecorder.OnDataAvailable | src/lib/audioRecorder.ts:43-55 | a chunk is emitted exactly when the data is non-empty, recording is on and the `FileReader` succeeds (a failed read, line 122, emits nothing); it carries the incremented counter, the extracted payload and the clock reading; otherwise the counter is unchanged; the numbering invariant `Valid` (indices 1, 2, 3, … without gaps) is kept |
| AudioCapture.AudioRecorder.Stop | src/lib/audioRecorder.ts:70-84 | afterwards nothing is recording, and the stream and platform recorder are cleared; a running recorder is stopped and held tracks are released, each only if present |
| AudioCapture.AudioRecorder.GetIsRecording | src/lib/audioRecorder.ts:86-88 | returns the recording flag |
| AudioCapture.AudioRecorder.GetCurrentChunkIndex | src/lib/audioRecorder.ts:90-92 | returns the counter, which equals the number of chunks emitted since the last start |
| AudioCapture.StopTwice | src/lib/audioRecorder.ts:70-84 | a second `stop` stops nothing, releases nothing and leaves the recorder cleared |
| AudioCapture.StopDropsLastSlice | src/lib/audioRecorder.ts:70-71 | a slice delivered after `stop`, whatever its size and content, yields no chunk and leaves the counter and the numbering as they were |
| Webhook.FinalSignal | src/lib/webhookService.ts:71-76 | the final request carries the session id, an empty payload, chunk index -1 and the final flag |
| Consultation.AppendTranscript | src/components/ConsultationRecorder.tsx:43-45 | the old transcript is a prefix of the new one; a non-empty fragment follows it after one space; an absent or empty fragment, or a failed delivery, adds nothing |
| Consultation.TranscriptIsSpaceJoined | src/components/ConsultationRecorder.tsx:43-45 | after any run of responses, the transcript is the old one followed by every non-empty fragment in arrival order, each after one space |
| Consultation.Accumulate | src/components/ConsultationRecorder.tsx:43-45 | applying responses one after another only ever extends the transcript: the earlier text stays its prefix |
| Consultation.TwoFragmentsExample | src/components/ConsultationRecorder.tsx:43-45 | fragments "A" then "B" build `" A B"` |
| Consultation.ShallowMerge | src/components/ConsultationRecorder.tsx:48-51 | `{...prev, ...response}`: every key the response carries wins; without previous data the result is the response; an empty response keeps the previous data |
| Consultation.AbsentKeyKeepsEarlierValue | src/components/ConsultationRecorder.tsx:47-52 | each top-level key absent from a later response keeps its earlier value, whatever the other keys carry |
| Consultation.ShallowMergeComposes | src/components/ConsultationRecorder.tsx:47-52 | two merges in a row equal one merge of the later response spread over the earlier, so each key holds its latest present value |
| Consultation.LaterAnamneseReplacesWholesale | src/components/ConsultationRecorder.tsx:48-51 | a later `anamnese` without `queixa_principal` erases the chief complaint an earlier one set |
| Consultation.MergeChunkResponse | src/components/ConsultationRecorder.tsx:47-52 | the note data changes only for a response carrying `anamnese` or `raciocinio_clinico`, and then by the shallow merge |
| Consultation.MergeFinalResponse | src/components/ConsultationRecorder.tsx:101-109 | any final response that arrived is merged; a failed one changes nothing |
| Consultation.EmptyFinalResponseCreatesNote | src/components/ConsultationRecorder.tsx:101-109 | a final `{}` turns missing note data into `{}`, while a chunk `{}` leaves it missing |
| Consultation.ConsultationRecorder.constructor | src/components/ConsultationRecorder.tsx:23-30 | the initial state: idle, empty transcript, no note data, no chunks, no error, no recorder, empty session id |
| Consultation.ConsultationRecorder.HandleChunkReady | src/components/ConsultationRecorder.tsx:32-53 | `chunksSent` becomes the chunk's index; the request carries the session id, payload and index with the final flag off; transcript and note data follow `AppendTranscript` and `MergeChunkResponse`; phase, error, session and recorder are untouched; an undefined payload throws before any of this |
| Consultation.ConsultationRecorder.StartRecording | src/components/ConsultationRecorder.tsx:55-84 | the session id becomes the generated id on both paths; a new recorder is created; success moves idle to recording and clears error, transcript, note data and `chunksSent`; failure keeps the phase and session data and sets the microphone error |
| Consultation.ConsultationRecorder.OpenSession | src/components/ConsultationRecorder.tsx:57-84 | the same outcomes as `StartRecording`, for an id already drawn |
| Consultation.ConsultationRecorder.StopRecording | src/components/ConsultationRecorder.tsx:86-99 | the recorder is stopped and dropped; recording moves to processing; the final request for the session is returned; the data is untouched |
| Consultation.ConsultationRecorder.ReceiveFinalResponse | src/components/ConsultationRecorder.tsx:99-111 | processing moves to completed whatever the response; transcript and note data follow `AppendTranscript` and `MergeFinalResponse` |
| Consultation.ConsultationRecorder.StartNewConsultation | src/components/ConsultationRecorder.tsx:119-125 | completed moves to idle, and transcript, note data, `chunksSent` and error are cleared |
| AnamneseFormModel.OrElse | src/components/AnamneseForm.tsx:53 | the logical-or fallback on an optional string: a present non-empty value wins; otherwise the previous one is kept |
| AnamneseFormModel.MergeAnamnese | src/components/AnamneseForm.tsx:50-71 | each of the nine anamnese fields, including the three personal-history sub-fields, is `OrElse` of its incoming value; hypotheses and management are untouched |
| AnamneseFormModel.MergeReasoning | src/components/AnamneseForm.tsx:74-80 | a present hypothesis list replaces the old one even when empty; management text is `OrElse`; the anamnese fields are untouched |
| AnamneseFormModel.ApplyData | src/components/AnamneseForm.tsx:49-82 | missing data, or data without both blocks, changes nothing |
| AnamneseFormModel.ApplyDataPerField | src/components/AnamneseForm.tsx:49-82 | every text field after the effect is the incoming non-empty value when its block is present, and otherwise its previous value |
| AnamneseFormModel.ApplyDataNeverErasesText | src/components/AnamneseForm.tsx:50-80 | a filled-in text field is never emptied by incoming data |
| AnamneseFormModel.ApplyDataHypotheses | src/components/AnamneseForm.tsx:74-80 | after the effect the hypothesis list is the incoming one whenever the reasoning block carries a list, even an empty one, and the previous one otherwise |
| AnamneseFormModel.EmptyHypothesisListErases | src/components/AnamneseForm.tsx:77 | an empty incoming hypothesis list wipes the hypotheses |
| AnamneseFormModel.ApplyDataIdempotent | src/components/AnamneseForm.tsx:49-82 | re-running the effect on the same data changes nothing further |
| AnamneseFormModel.WithText | src/components/AnamneseForm.tsx:84-92 | only the named field changes, and it takes the value |
| AnamneseFormModel.SetSlot | src/components/AnamneseForm.tsx:94-96 | the slot holds the value; the list grows to reach it, with holes reading as empty; every other slot keeps its value |
| AnamneseFormModel.AnamneseForm.constructor | src/components/AnamneseForm.tsx:33-45 | the form starts with empty fields and three empty hypothesis slots |
| AnamneseFormModel.AnamneseForm.OnDataChange | src/components/AnamneseForm.tsx:49-82 | the two guarded `setFormData` steps amount to `ApplyData` |
| AnamneseFormModel.AnamneseForm.HandleInputChange | src/components/AnamneseForm.tsx:84-92 | the form becomes `WithText` of the old form |
| AnamneseFormModel.AnamneseForm.HandleHipoteseChange | src/components/AnamneseForm.tsx:94-98 | writing the slot into a copied array leaves everything but the hypothesis list as it was, and the list becomes `SetSlot` of the old list |
| AnamneseFormModel.ProntuarioLines | src/components/AnamneseForm.tsx:101-144 | the record has 42 lines |
| AnamneseFormModel.PresentingLines | src/components/AnamneseForm.tsx:106-116 | lines 5, 8, 11 and 14 hold identification, chief complaint, present illness and systems review, or the "(não informado)" placeholder |
| AnamneseFormModel.PersonalHistoryLines | src/components/AnamneseForm.tsx:118-121 | lines 17 to 19 hold the three labelled personal-history entries or the placeholder |
| AnamneseFormModel.BackgroundAndPlanLines | src/components/AnamneseForm.tsx:123-139 | lines 22, 25 and 37 hold family history, habits and management, each with its placeholder |
| AnamneseFormModel.HypothesisLines | src/components/AnamneseForm.tsx:134-136 | lines 32 to 34 hold `HD1:` to `HD3:` with the first three hypothesis slots, an empty or missing slot as "(não definida)" |
| AnamneseFormModel.EveryFieldIsExported | src/components/AnamneseForm.tsx:101-144 | every text field has its own line with its label and value, or "(não definida)" for management and "(não informado)" for the rest |
| AnamneseFormModel.OnlyThreeHypothesesExported | src/components/AnamneseForm.tsx:133-136 | lists that agree on the first three slots give the same record, so later hypotheses never appear |
| AnamneseFormModel.GenerateProntuarioText | src/components/AnamneseForm.tsx:100-147 | the exported text opens with the rule line followed by a line break |
| AnamneseFormModel.ProntuarioSplitsIntoLines | src/components/AnamneseForm.tsx:100-147 | when no entry holds a line break, the joined record splits back into exactly its 42 lines |
| Strings.Split | src/lib/audioRecorder.ts:119 | `split` on one character yields at least one piece, none containing the separator, and a single piece exactly when the separator is absent; joining the pieces gives the input back |
| Strings.Join | src/components/AnamneseForm.tsx:146 | `join` of no lines is empty; otherwise the text starts with the first line, followed by the separator when there is a second |
| Strings.SplitJoin | src/components/AnamneseForm.tsx:146 | `join` of separator-free lines splits back into the same lines |
| Strings.Decimal | src/components/RecordingTimer.tsx:38 | `toString` of a natural number is all digits, one digit exactly below 10, two from 10 to 99, and no leading zero |
| Strings.DecimalRoundTrip | src/components/RecordingTimer.tsx:38 | the decimal digits of `n.toString()` read back as `n` |
| Timer.PadTwo | src/components/RecordingTimer.tsx:38-44 | `padStart(2, "0")` puts zeros in front up to length two and keeps the string at its end |
| Timer.TwoDigits | src/components/RecordingTimer.tsx:38-44 | the padded number has at least two digits, exactly two below 100, and still reads as the number |
| Timer.Hours | src/components/RecordingTimer.tsx:33 | the whole hours: hours·3600 is at most the total and the next hour would exceed it |
| Timer.Minutes | src/components/RecordingTimer.tsx:34 | the whole minutes past the last full hour, below 60 |
| Timer.Secs | src/components/RecordingTimer.tsx:35 | the seconds past the last full minute: below 60, and the total minus them is a whole number of minutes |
| Timer.Decompose | src/components/RecordingTimer.tsx:33-35 | minutes and seconds are each below 60; hours are positive exactly from 3600 seconds on; hours·3600 + minutes·60 + seconds is the input |
| Timer.TwoDigitsPadding | src/components/RecordingTimer.tsx:38-44 | one leading zero is added below 10, and nothing is added from 10 on |
| Timer.FormatTime | src/components/RecordingTimer.tsx:32-45 | the display has at least five characters, a colon before the two seconds digits, and exactly five characters exactly when less than an hour has passed |
| Timer.FormatTimeShape | src/components/RecordingTimer.tsx:37-44 | under an hour the display is `MM:SS` (5 characters); with 1 to 99 hours it is `HH:MM:SS` (8 characters) |
| Timer.FormatTimeRoundTrip | src/components/RecordingTimer.tsx:32-45 | reading the display back gives the elapsed time, so no two times look the same |
| Timer.UnderAnHourExample | src/components/RecordingTimer.tsx:42-44 | 65 seconds show as `01:05` |
| Timer.OverAnHourExample | src/components/RecordingTimer.tsx:37-40 | 3725 seconds show as `01:02:05` |
| Timer.RecordingTimer.constructor | src/components/RecordingTimer.tsx:10 | the counter starts at 0 |
| Timer.RecordingTimer.SetRunning | src/components/RecordingTimer.tsx:12-25 | starting keeps the count; stopping resets it to 0; a stopped timer always shows 0 (`Valid`) |
| Timer.RecordingTimer.Tick | src/components/RecordingTimer.tsx:16-21 | the count goes up by exactly one, and the new value is the one reported |
| Timer.RecordingTimer.Display | src/components/RecordingTimer.tsx:50 | the rendered text reads back as the current count |

## Left out

- Browser and network effects are not modelled. Their outcomes are inputs, as listed above. These effects are:
  - `getUserMedia`, `MediaRecorder`, the `FileReader` encoding and `MediaRecorder.isTypeSupported`;
  - `fetch`, JSON parsing and the `WEBHOOK_URL` constant;
  - `setInterval` and `clearInterval`;
  - `navigator.clipboard`;
  - `Date.now` and `toLocaleString`.
- Logging, toasts, JSX rendering, `TranscriptionArea.tsx` and `SoundWaveIndicator.tsx` are view code or output only.
- The `copied` flag of `AnamneseForm` and its reset timeout are out of scope for the same reason.
- Concurrency is not modelled:
  - responses arriving out of order;
  - chunks in flight across `stop`;
  - React batching of state updates.

  Every handler is one atomic step. A chunk's request and its response are folded into one `HandleChunkReady` step. `stopRecording` is split at its `await` into `StopRecording` and `ReceiveFinalResponse`.
- The `onerror` handler of the platform recorder is not modelled. It only logs.
- A JSON `null` value for a key is read the same as an absent key.
- JavaScript array holes that `handleHipoteseChange` leaves when it writes past the end of the list are modelled as `""`. Both render as the "(não definida)" placeholder.
- Consultation.ConsultationRecorder.StartRecording, StopRecording and StartNewConsultation require the phase in which the interface offers their button: idle, recording and completed. The code itself has no such guard.
- Timer.RecordingTimer.SetRunning does not model how the interval is re-armed when only the `onTimeUpdate` callback changes. Re-arming keeps the count, as `SetRunning(true)` does.
- AudioCapture.AudioRecorder.OnDataAvailable returns the chunk instead of invoking the registered callback. The callback is `handleChunkReady`, modelled separately.

Behaviour of the code worth knowing:

- The orchestrator merges note data by top-level key (`{...prev, ...response}`), not field by field. A later `anamnese` block replaces the earlier one whole and can erase fields it lacks (`LaterAnamneseReplacesWholesale`). Only the form merges field by field.
- Late chunk responses are merged whenever they arrive, whatever the current session or phase. There is no stale-session guard.
- `stop` lowers the recording flag before it stops the platform recorder. The last slice, which the platform delivers on stop, is therefore dropped by `OnDataAvailable` and never sent (`StopDropsLastSlice`).
- A start that fails after the device is granted still leaves the new recorder in the recorder ref, and leaves its stream acquired.
