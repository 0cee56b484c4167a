# Interview assistant: a verified model of its core logic

The interview assistant records interview audio, transcribes it, and shows
the transcript in a browser. From screenshots it extracts coding questions,
asks a language model for solutions and follow-up solutions, and displays
them. This project models the sequential logic of that system in Dafny and
proves what the code promises. Threads, devices, network calls and the DOM
are replaced by parameters.

The model covers four groups:

- **Audio framing and the transcript pipeline.** This covers
  `WhisperTranscriber` (record_and_transcript.py), `MicrophoneTranscriber`
  (mic_record.py) and `WebTranscriber` (web_adapter.py).
  - `Capture` specifies the three worker loops as functions:
    - the recording loop packs frames into chunks;
    - the transcription loop turns chunks into stripped, non-empty texts;
    - the saving loop writes lines.
  - Each class is imperative Dafny whose loops are proved against these
    functions.
  - The Whisper call is a function from chunk to reply. Clocks are
    functions from position to formatted time.
- **The server's shared stores.**
  - `Config` is the `interview_data` store and its writers: server_modules/config.py.
  - `Interview` is the question and follow-up registry: server_modules/interview.py.
  - `Transcription` is the transcript reads and the recording guards: server_modules/transcription.py.
  - `SolutionRoutes` is request validation, the store-on-success rule and the lookups: server_modules/solution.py.
  - Each locked block is one method of a class holding maps and sequences.
- **Parsing a language model's reply.**
  - `Sections` is the line-oriented section parser shared by claude_api.py and openai_api.py.
  - `ClaudeApi` covers the brace span, the fallback result and the React result shape.
  - `OpenAiApi` covers the OpenAI result shape and its agreement with the Claude fallback.
  - `json.loads` is a partial function given as a parameter.
- **Front-end logic that is not DOM.**
  - `Polling` covers the latest follow-up key, the poll-key bookkeeping and the handlers: SolutionPollingManager.js.
  - `Utils` covers `detectLanguage` and `cleanCodeMarkdown`.
  - `AppState` is the dot-path store with change detection and the singleton.
  - `StateEvents` is the listener registry.
  - `JsValues` holds the JavaScript values the store holds.

`Text` holds the string operations the sources rely on:
- Python's `strip`, `lower`, `split` and `str(int)`;
- JavaScript's `parseInt` and `includes`.

`Values` holds the dictionaries the Python server stores.

## Model

| member | source | states |
|---|---|---|
| Capture.ChunksPerBuffer | record_and_transcript.py:78 | `int(frames_per_buffer / chunk_size)` is the quotient truncated toward zero: for non-negative frames and a positive chunk size, `q * chunk <= frames < q * chunk + chunk`. It is undefined (a ZeroDivisionError) exactly when the chunk size is 0. |
| Capture.Width | record_and_transcript.py:86-90 | A chunk always holds at least one frame: when `chunks_per_buffer <= 0` the `>=` test passes for every frame. |
| Capture.RecordIsChunking | record_and_transcript.py:80-90 | Run over the frames read, the recording loop enqueues exactly the complete runs of `Width` consecutive frames, joined, after what was already queued. The loop starts with empty `frames`. The frames of an incomplete run stay pending. Every frame is appended to `all_audio_data` in read order. |
| Capture.ChunkingSpec | record_and_transcript.py:80-90 | The reference chunking of `n` frames into runs of `w`: `k` chunks with `k*w <= n < k*w + w` (so `k = n div w`). Chunk `j` is the join of frames `j*w .. j*w+w-1`. The pending frames are the ones after them, fewer than `w`. The chunks' bytes followed by the pending bytes are all the bytes read. |
| Capture.EachFrameAlone | record_and_transcript.py:86-90 | With a width of 1, every frame is enqueued on its own and nothing stays pending. |
| Capture.TranscriptsAreStripped | record_and_transcript.py:129-132 | Each chunk puts at most one text on the text queue, and each text is non-empty and has no surrounding white space. |
| Capture.FailedChunkIsDropped | record_and_transcript.py:119-140 | A chunk whose Whisper call raises adds no text, and the chunks after it are still transcribed. |
| Capture.TranscriptsAppend | record_and_transcript.py:103-140 | Transcribing two runs of chunks is transcribing each in turn, so texts keep chunk order. |
| Capture.PlainLinesAppend | record_and_transcript.py:145-150 | The file of two runs of texts is the file of the first followed by the file of the second: one line per text, in order. |
| RecordAndTranscript.FindDevice | record_and_transcript.py:44-51 | The chosen index is the first device whose name contains the wanted name. It is `None` exactly when no device name contains it. |
| RecordAndTranscript.WhisperTranscriber.constructor | record_and_transcript.py:22-57 | Stores the settings and computes `frames_per_buffer = sample_rate * record_seconds`. The queues, the stop flag and the audio store start empty. The device index is as `FindDevice` chooses. |
| RecordAndTranscript.WhisperTranscriber.RecordAudioThread | record_and_transcript.py:77-98 | The loop fails (and records nothing) exactly when `chunk_size` is 0. Otherwise the loop's state is the reference chunking of the frames read: the audio queue gains `Enqueued`, `all_audio_data` gains every frame, and the pending frames are the leftover, never enqueued. |
| RecordAndTranscript.WhisperTranscriber.TranscribeThread | record_and_transcript.py:101-140 | Drains the audio queue completely, appending the `Transcripts` of the queued chunks to the text queue. It can finish only when the stop flag is set. |
| RecordAndTranscript.WhisperTranscriber.SaveTranscriptionThread | record_and_transcript.py:142-153 | The file, opened empty, receives each queued text as one line, in queue order. The queue ends empty. It finishes only when stopped. |
| RecordAndTranscript.WhisperTranscriber.Stop | record_and_transcript.py:196-198 | Sets the stop flag. |
| RecordAndTranscript.WhisperTranscriber.AudioToSave | record_and_transcript.py:190-192 | Audio is saved exactly when `save_audio` is set and some audio was captured. What is saved is the join of all captured frames. |
| RecordAndTranscript.WhisperTranscriber.Start | record_and_transcript.py:155-194 | Records, then stops, then drains each queue after the thread feeding it has finished. In that order the file holds the lines of the texts of all chunks, the queued ones first and then those of the frames read, in order. The queues end empty. `all_audio_data` gains the frames read, or nothing when `chunk_size` is 0. Audio is saved under the rule of `AudioToSave`. |
| MicRecord.InputDevicesSpec | mic_record.py:56-63 | The list built by the device loop holds exactly the indices of devices with `maxInputChannels > 0`. |
| MicRecord.FirstAcceptedSpec | mic_record.py:77-85 | The selection loop returns the first typed line that parses to an input-device index. Lines that do not parse, or that name another index, are skipped. It gives `None` exactly when no typed line is accepted. |
| MicRecord.FindMicrophone | mic_record.py:48-93 | The default index is used when there is no terminal or the first answer lowers to `y`. Otherwise the first accepted typed index is used. The result is `None` when there is no default input device, or when the input ends before an accepted index (the `EOFError` is caught). |
| MicRecord.StampedIsPlain | mic_record.py:184-186 | The microphone file is one line `"[" + timestamp + "] " + text + "\n"` per dequeued text, in dequeue order. |
| MicRecord.MicrophoneTranscriber.constructor | mic_record.py:21-46 | Stores the settings and products as for `WhisperTranscriber`. The microphone index is the one `FindMicrophone` chooses, case by case. |
| MicRecord.MicrophoneTranscriber.RecordAudioThread | mic_record.py:114-137 | The same chunking as `WhisperTranscriber`'s loop, proved against the same reference: frames pending at stop are never enqueued. |
| MicRecord.MicrophoneTranscriber.TranscribeThread | mic_record.py:139-176 | Drains the audio queue into the `Transcripts` of its chunks. It finishes only when stopped. |
| MicRecord.MicrophoneTranscriber.SaveTranscriptionThread | mic_record.py:178-190 | The file receives one stamped line per queued text, in queue order. The queue ends empty. |
| MicRecord.MicrophoneTranscriber.Stop | mic_record.py:233-235 | Sets the stop flag. |
| MicRecord.MicrophoneTranscriber.AudioToSave | mic_record.py:227-229 | Audio is saved exactly when `save_audio` is set and audio was captured. What is saved is all captured frames. |
| MicRecord.MicrophoneTranscriber.Start | mic_record.py:192-231 | Records, then stops, then drains each queue after the thread feeding it has finished. In that order the file holds one stamped line per text of every chunk, and audio is saved under the same rule. |
| WebAdapter.TranscriptStore.constructor | web_adapter.py:9-11 | The shared list starts empty and `is_recording` starts false. |
| WebAdapter.SegmentTextsAreTranscripts | web_adapter.py:83-96 | The texts of the web list are exactly the texts the original transcription loop would queue, in the same order. |
| WebAdapter.WebTranscriber.constructor | web_adapter.py:17-23 | Wraps a fresh `WhisperTranscriber` with the given device and seconds and its default rate 16000 and chunk size 1024, reporting to the shared store. `frames_per_buffer` is `16000 * record_seconds`. The device index is the first whose name contains the wanted name, and it is `None` exactly when no name does. |
| WebAdapter.WebTranscriber.ProcessAudioChunk | web_adapter.py:52-104 | A reply with a non-empty stripped text appends one `{text, timestamp}` record to the list and the same text to the text queue, and returns it. Any other reply, including an exception, appends nothing and returns `None`. |
| WebAdapter.WebTranscriber.PatchedTranscribeThread | web_adapter.py:31-47 | Drains the audio queue. The list gains the `Segments` of the chunks and the text queue their `Transcripts`, both in chunk order. It finishes only when stopped. |
| WebAdapter.WebTranscriber.Start | web_adapter.py:106-109 | Sets `is_recording`. |
| WebAdapter.WebTranscriber.BackgroundRecording | web_adapter.py:112-119 | A background run with a truthy `duration` records, then stops, then drains each queue after the thread feeding it has finished. In that order the list gains one record per non-empty text of every chunk, and the file the same texts. `all_audio_data` gains the frames read, or nothing when `chunk_size` is 0; audio is saved exactly when `save_audio` is set and some was captured, as the join of all frames. The `finally` clause then leaves `is_recording` false. The fields that change are the queues, the stop flag, the audio store, the file, the list and `is_recording`. |
| WebAdapter.WebTranscriber.RecordThenStop | record_and_transcript.py:158-176 | The record thread adds the chunking of the frames read to the audio queue and the frames to `all_audio_data` (nothing for a zero `chunk_size`); then `stop` sets the stop flag. |
| WebAdapter.WebTranscriber.DrainThenSave | record_and_transcript.py:162-188 | The patched transcription loop and then the saving loop drain their queues: the list gains the segments of the queued chunks, and the file holds the queued texts followed by the chunks' texts. |
| WebAdapter.WebTranscriber.Stop | web_adapter.py:125-129 | Sets the transcriber's stop flag and clears `is_recording`. |
| Transcription.GetTranscriptions | server_modules/transcription.py:18-21 | Returns the whole list, oldest first. |
| Transcription.Latest | server_modules/transcription.py:23-29 | An empty list gives the record with empty text and timestamp. Otherwise the result is one of the list's records. |
| Transcription.LatestAfterChunk | server_modules/transcription.py:26-27 | After a chunk with text, the latest record is that stripped text with its time. A chunk without text leaves the latest record as it was. |
| Transcription.Recent | server_modules/transcription.py:31-48 | The loop returns `RecentSpec`: the records within the 120-second window, in list order. An empty list gives an empty result. |
| Transcription.RecentMembers | server_modules/transcription.py:37-47 | A record is in the recent list exactly when it is in the list and its timestamp parses and lies at most 120 s before now. Future timestamps are included and unparsable ones are skipped. |
| Transcription.RecentAppend | server_modules/transcription.py:39-44 | Filtering commutes with concatenation, so the recent list is an order-preserving subsequence. |
| Transcription.RecordingRoutes.constructor | server_modules/transcription.py:8-11 | The module's copy of `is_recording` is the store's flag at import time, and there is no transcriber. |
| Transcription.RecordingRoutes.StartRecording | server_modules/transcription.py:52-70 | As written, it decides on the import-time copy. When that copy is set: `already_recording` and nothing changes. Otherwise it clears the list, and a bad `record_seconds` fails with nothing started. Else a fresh transcriber with the request's device (default `BlackHole`) and seconds (default 5) is stored and started: `recording_started`. |
| Transcription.RecordingRoutes.Launch | server_modules/transcription.py:59-70 | Clears the list, reads the arguments, creates the transcriber and starts it. |
| Transcription.RecordingRoutes.StopRecording | server_modules/transcription.py:72-83 | As written: with the import-time copy unset or no transcriber, `not_recording`; the routes' fields, `is_recording`, the transcriptions and the transcriber's stop flag are unchanged. Otherwise `recording_stopped`: the transcriber's stop flag is set, `is_recording` is false, the transcriber is forgotten and the transcriptions are kept. |
| Transcription.RecordingRoutes.Halt | server_modules/transcription.py:79-83 | Sets the stop flag of the transcriber, clears `is_recording` and forgets the transcriber; it changes nothing else. |
| Transcription.RecordingRoutes.RecordingStatus | server_modules/transcription.py:85-87 | As written, reports the import-time copy. |
| Transcription.RecordingRoutes.StartRecordingLive | server_modules/transcription.py:52-70 | The same guard on the live flag: refused while recording, otherwise as `Launch`. |
| Transcription.RecordingRoutes.StopRecordingLive | server_modules/transcription.py:72-83 | The same route reading the live flag: when no recording runs, `not_recording` and nothing changes, including the stop flag. Otherwise the recording is stopped as by `Halt`. The transcriptions are kept either way. |
| Transcription.RecordingRoutes.RecordingStatusLive | server_modules/transcription.py:85-87 | Reports the live flag. |
| Transcription.StopAfterStartAsWritten | server_modules/transcription.py:8 | As written, after a successful start the status route says `false` and stop says `not_recording`, while the recording keeps running and its transcriber's stop flag is never set. |
| Transcription.StartTwiceAsWritten | server_modules/transcription.py:56 | As written, a second start during a recording is accepted again. |
| Transcription.StopAfterStartLive | server_modules/transcription.py:52-87 | Reading the live flag, start succeeds, a second start is refused, the status is `true`, and stop stops the recording. |
| Config.QuestionRef | server_modules/config.py:36 | The screenshot's question id is the current question when that is present and truthy (not 0), else `None`. |
| Config.FollowupRecord | server_modules/config.py:66-72 | The follow-up record has exactly the five keys. Explanation, solution and code are copied or default to `""`. `is_followup` is true and the timestamp is the call's. |
| Config.FollowupKeyShape | server_modules/config.py:74-75 | A follow-up key starts with `path + ":"`, holds `":" + provider + "-followup:"` right after the path, ends with the seconds, and is never the path itself. |
| Config.FollowupKeysDistinct | server_modules/config.py:74-76 | For one path and provider, two keys are equal exactly when their seconds are equal. |
| Config.InterviewData.constructor | server_modules/config.py:16-23 | Every store starts empty and there is no current question. |
| Config.InterviewData.AddScreenshot | server_modules/config.py:28-39 | Appends exactly one record at the end and returns it: the path, time, type, notes and `QuestionRef` of the current question. |
| Config.InterviewData.StoreExtractedQuestion | server_modules/config.py:41-45 | A non-empty question overwrites the entry of the path. A missing or empty one changes nothing. |
| Config.InterviewData.StoreSolution | server_modules/config.py:47-51 | A truthy solution overwrites the path's entry and nothing else. A falsy one is ignored. |
| Config.InterviewData.StoreReactSolution | server_modules/config.py:53-60 | A truthy solution is stored under the path, and its `code` (default `""`) under the same path among the React solutions. Otherwise nothing changes. |
| Config.InterviewData.StoreFollowupSolution | server_modules/config.py:62-76 | A truthy solution stores `FollowupRecord` under `FollowupKey(path, provider, seconds)` and nothing else. A falsy one is ignored. |
| Config.SameSecondFollowupsCollide | server_modules/config.py:74-76 | Two follow-ups for the same path and provider in the same second leave one entry: the second. |
| Interview.FirstWithId | server_modules/interview.py:52-53 | The index found is that of the first question with the id. It is `None` exactly when no question has it. |
| Interview.CurrentQuestionIsFound | server_modules/interview.py:67-73 | While ids are 1..n in order and the current id is one of them, the current question is at position id - 1, so the 404 branch is unreachable. |
| Interview.MarkQuestion | server_modules/interview.py:15-36 | Appends a question with id = previous count + 1, the body's type (default `coding`) and notes, and no follow-ups, and makes it current. The registry invariant is kept. |
| Interview.MarkFollowup | server_modules/interview.py:38-79 | With no current question: error, nothing changes. With no question of the current id: not found, nothing changes. Otherwise only the first question with that id gains a follow-up numbered one more than its follow-ups so far. Under the invariant, not-found cannot happen and the invariant is kept. |
| Interview.ResetAllData | server_modules/interview.py:90-112 | Every interview store is emptied, there is no current question, and the transcript list is cleared. |
| Interview.GetScreenshotsList | server_modules/interview.py:114-118 | Returns the screenshot records in the order they were added. |
| Interview.MarkTwoQuestions | server_modules/interview.py:22-31 | From an empty registry, questions are numbered 1 and 2, and a follow-up then gets id 1. |
| SolutionRoutes.Validate | server_modules/solution.py:127-249 | A POST is refused (400, no work) exactly when one of its required fields is missing or empty. Otherwise the job gets exactly those fields' values, the last being the screenshot path. |
| SolutionRoutes.Process | server_modules/solution.py:21-122 | A worker stores only when the provider returns a truthy dictionary. It stores under the path, under the path in both stores for React, or under the follow-up key. A `None`, an empty dictionary or an exception stores nothing. |
| SolutionRoutes.GetAllSolutions | server_modules/solution.py:254-261 | Returns exactly the two solution stores. |
| SolutionRoutes.JoinPath | server_modules/solution.py:266 | `os.path.join("screenshots", name)`: `screenshots/` followed by the name, or the name itself when it is absolute. |
| SolutionRoutes.Find | server_modules/solution.py:268-269 | `dict.get(key, None)`: the entry when present, `None` exactly when absent. |
| SolutionRoutes.SelectEntries | server_modules/solution.py:272-276 | The loop collects exactly the entries whose key passes the test. |
| SolutionRoutes.GetSolutionForScreenshot | server_modules/solution.py:263-283 | The lookup as written: the joined path, its solution and React code or `None`, and the entries whose key starts with `path + ":"` and contains `:followup:`. |
| SolutionRoutes.GetSolutionForScreenshotCorrected | server_modules/solution.py:263-283 | The same lookup whose filter looks for `-followup:`. |
| SolutionRoutes.LegacyFilterMissesFollowups | server_modules/solution.py:275 | For provider `claude` or `gemini` and a path without `followup`, no key written by `store_followup_solution` passes the filter as written. |
| SolutionRoutes.CorrectedFilterFindsFollowups | server_modules/solution.py:275 | Every follow-up key of the path passes the corrected filter. |
| SolutionRoutes.FollowupLookupScenario | server_modules/solution.py:263-283 | After storing one Claude follow-up, the lookup as written returns no follow-ups. The corrected lookup returns exactly that follow-up. |
| Sections.HeaderOf | claude_api.py:570-584 | A line is a header of the first section, in the order explanation, code, complexity, strategy, whose keyword its lowered form contains and that starts with `#` or the section's number. It is no header exactly when it passes no test. |
| Sections.StepEffect | claude_api.py:573-593 | A header switches the section and is not copied. Any other line is appended with a newline to the current section only. |
| Sections.LinesBeforeFirstHeaderDropped | claude_api.py:569-593 | Lines before the first header change nothing. |
| Sections.SectionAfterHeader | claude_api.py:573-593 | After a header for a section, the lines up to the next header become that section's text, each followed by a newline, and no other section grows. |
| Sections.Parsed | claude_api.py:596-597 | When all four sections are empty, the explanation is the whole text. Otherwise the collected sections are kept. |
| Sections.NoHeaderIsExplanation | claude_api.py:596-597 | A text without a header line parses to the whole text as explanation and nothing else. |
| Sections.ParseSections | openai_api.py:130-164 | The line loop computes exactly `Parsed(text)`. The same loop is claude_api.py:563-597. |
| ClaudeApi.Find | claude_api.py:545 | `find('{')`: the first index of the character, `None` exactly when absent. |
| ClaudeApi.RFind | claude_api.py:546 | `rfind('}')`: the last index of the character, `None` exactly when absent. |
| ClaudeApi.BraceSpan | claude_api.py:545-549 | The candidate exists exactly when a `{` exists and the last `}` comes after the first `{`. It is the text between them, both included, with no `{` before and no `}` after. |
| ClaudeApi.FallbackFields | claude_api.py:604-610 | The fallback always has the explanation. Code, complexity and strategy are present exactly when non-empty. `solution` is present, empty, exactly for the React prompt. There are no other keys. |
| ClaudeApi.GetSolutionWithPrompt | claude_api.py:486-621 | No API key gives `None`. Otherwise the result is `SolutionOf` the reply: `None` for a failed request, the parsed object with its own keys and values, or the fallback on the stripped sections. |
| ClaudeApi.AnsweredRequestsYieldSolutions | claude_api.py:542-612 | Every answered request yields a dictionary. It is the parsed object when the span parses, and otherwise always has an explanation. |
| ClaudeApi.PlainReplyIsExplanation | claude_api.py:562-612 | A reply without `{` and without header lines comes back as `{"explanation": stripped text}` only. |
| ClaudeApi.ReactSolution | claude_api.py:195-256 | No API key, unset or empty, gives `None` before any request. Otherwise a reply gives exactly the five keys: code is the stripped reply and the other four are `""`. A failed request gives `None`. |
| OpenAiApi.SectionFields | openai_api.py:166-171 | The result has exactly the four keys with the given texts. |
| OpenAiApi.GetSolutionForQuestion | openai_api.py:89-178 | No key gives `None` before any request, and so does a failed or empty response. Otherwise the result is the four stripped sections of `Parsed(reply)`. |
| OpenAiApi.FieldsAgree | openai_api.py:166-171 | Built from the same sections, every field Claude's fallback emits (other than `solution`) has the same value in the OpenAI result. Each OpenAI field the fallback leaves out is empty. |
| OpenAiApi.AgreesWithClaudeFallback | openai_api.py:130-171 | For every reply text the two parsers agree as in `FieldsAgree` on the parsed sections. |
| Polling.GetFilename | static/js/managers/solution/SolutionPollingManager.js:378-380 | The filename has no `/`, ends the path, and is preceded by a `/` unless it is the whole path. |
| Polling.FilenameOfPlainName | static/js/managers/solution/SolutionPollingManager.js:378-380 | A path without `/` is its own filename. |
| Polling.FilenameAfterSlash | static/js/managers/solution/SolutionPollingManager.js:378-380 | The filename of `dir + "/" + name` is `name`. |
| Polling.PickOf | static/js/managers/solution/SolutionPollingManager.js:93-106 | The `forEach` picks a selectable candidate (a number not below 0) whose stamp is the result. No selectable candidate is larger and every later one is smaller, so ties go to the later key. Nothing is picked, with stamp 0, exactly when no candidate is selectable. |
| Polling.LatestPickChosen | static/js/managers/solution/SolutionPollingManager.js:89-106 | Over keys, only keys with the prefix compete. The chosen key qualifies, with a `parseInt` of its last `:` piece that is a number not below 0, and that stamp is the result. Nothing is chosen, with stamp 0, exactly when no key qualifies. |
| Polling.LatestPickMaximal | static/js/managers/solution/SolutionPollingManager.js:89-106 | No qualifying key has a larger stamp than the chosen one, and every later qualifying key has a smaller one, so ties go to the last key. NaN and negative stamps never win. |
| Polling.SelectLatest | static/js/managers/solution/SolutionPollingManager.js:93-106 | The selection loop returns `LatestPick`'s key and stamp. |
| Polling.StampOfFollowupKey | static/js/managers/solution/SolutionPollingManager.js:98-99 | The stamp read from a key `store_followup_solution` writes is its seconds. |
| Polling.FollowupPrefixMissesClaudeKeys | static/js/managers/solution/SolutionPollingManager.js:79 | The standard poller's prefix `path + ":followup:"` is a prefix of no key written for `claude`. |
| Polling.StandardPollerNeverFinds | static/js/managers/solution/SolutionPollingManager.js:79-106 | When all stored keys are Claude follow-ups of the path, the standard poller selects none. |
| Polling.GeminiPrefixMatches | static/js/managers/solution/SolutionPollingManager.js:154 | Every key written for `gemini` qualifies under the Gemini prefix, so it is a candidate for the pick. |
| Polling.CorrectedPollerFindsLatest | static/js/managers/solution/SolutionPollingManager.js:79-106 | With the prefix `path + ":claude-followup:"`, the poller selects a Claude follow-up of the latest second. |
| Polling.ClearedEntries | static/js/managers/solution/SolutionPollingManager.js:387-405 | `_clearPolling(k)` removes a key with a live id and leaves every other key as it was. With positive ids, a second call changes nothing. |
| Polling.OverwriteOrphansTimer | static/js/managers/solution/SolutionPollingManager.js:82-84 | Storing a new id under a key without clearing first would leave the old timer scheduled but unreachable, which is why every starter clears first. |
| Polling.SolutionPollingManager.constructor | static/js/managers/solution/SolutionPollingManager.js:13-20 | No intervals or timeouts. |
| Polling.SolutionPollingManager.ClearPolling | static/js/managers/solution/SolutionPollingManager.js:387-405 | The key's interval and timeout are cancelled and forgotten, and no other key is touched. Every scheduled timer still belongs to exactly one key. |
| Polling.SolutionPollingManager.StartPolling | static/js/managers/solution/SolutionPollingManager.js:82-84 | A starter clears its key and stores the fresh ids. The old timers of the key are cancelled, so each key has one live interval and one live timeout. |
| Polling.SolutionPollingManager.PollForFollowupSolution | static/js/managers/solution/SolutionPollingManager.js:76-145 | Schedules the interval and timeout under `followup-` + filename. |
| Polling.SolutionPollingManager.HandlePollingError | static/js/managers/solution/SolutionPollingManager.js:413-426 | Always clears polling for the key. When `isGenerating` was not truthy nothing else changes. Otherwise the state and the delivered events are exactly those of `update('isGenerating', false)`, so `isGenerating` becomes false. |
| Polling.SolutionPollingManager.HandlePollingTimeout | static/js/managers/solution/SolutionPollingManager.js:434-447 | The same as the error handler. |
| Polling.SolutionPollingManager.StopGenerating | static/js/managers/solution/SolutionPollingManager.js:416-417 | The shared state step: only a truthy `isGenerating` is updated. Then the state and the delivered events are exactly those of `update('isGenerating', false)`; otherwise neither changes. |
| Polling.SolutionPollingManager.FollowupTick | static/js/managers/solution/SolutionPollingManager.js:84-126 | A tick finds a follow-up exactly when `LatestPick` chooses a non-empty key whose solution is truthy. Then exactly the key's timers are cleared, the delivered events are those of `solution:followupAvailable` with `{type, solution}` followed by those of `update('isGenerating', false)`, and the state is that update's. Otherwise nothing changes. The Gemini ticks at lines 159-201 and 310-347 are the same with their prefixes. |
| Polling.SolutionPollingManager.Announce | static/js/managers/solution/SolutionPollingManager.js:115-126 | Emits the event to its listeners, then updates `isGenerating` to false, then clears the key's polling. The state is exactly the update's, and the deliveries are the event's followed by the update's. |
| Utils.DetectLanguage | static/js/utils/utils.js:10-56 | The result is one of the five languages. Each language is chosen exactly when its test passes and the earlier ones fail, and `javascript` exactly when none of the four tests passes. |
| Utils.CAndCppApart | static/js/utils/utils.js:29-43 | Code detected as C has no `std::` and no `class `. Code detected as C++ includes a header. Code with `std::` is never C. |
| Utils.CleanCodeMarkdown | static/js/utils/utils.js:93-95 | Removes the leading fence line and then a trailing fence of the rest. It is the identity when there is neither. |
| Utils.TypescriptAlternativeSubsumed | static/js/utils/utils.js:94 | The `typescript` alternative matches exactly where the general fence alternative matches the same text. |
| Utils.CleansFencedBlock | static/js/utils/utils.js:94 | For a word-only tag `w`, cleaning a fenced block with that tag gives its body. |
| Utils.CleanIsInfix | static/js/utils/utils.js:94 | The output is a contiguous part of the input. |
| Utils.NoFenceUnchanged | static/js/utils/utils.js:94 | Input without a fence is returned unchanged. |
| Utils.NotIdempotent | static/js/utils/utils.js:94 | Cleaning is not idempotent: three fences on two lines clean to one fence line, which cleans to nothing. |
| AppState.GetValueAtPath | static/js/state/AppState.js:101-117 | The loop walks the keys of the dot path and returns `GetAt`: `undefined` as soon as it stands on a non-object. |
| AppState.GetAtConcat | static/js/state/AppState.js:105-114 | Walking `a` and then `b` is walking `a + b`. |
| AppState.WalkStopsAtNonObject | static/js/state/AppState.js:106-112 | Once the walk reaches null, undefined or a primitive, every longer path reads `undefined`. |
| AppState.Assign | static/js/state/AppState.js:135 | A successful final assignment happens on an object or array, and its key then reads the value. |
| AppState.SetAt | static/js/state/AppState.js:123-136 | A successful set starts from an object, and afterwards the path reads back exactly the value. |
| AppState.SetKeepsOtherPaths | static/js/state/AppState.js:123-136 | A set leaves every path that is neither a prefix nor an extension of its path as it was. |
| AppState.SetIntoEmpty | static/js/state/AppState.js:128-131 | Setting into `{}` creates the nested objects along the path. |
| AppState.CreatesIntermediates | static/js/state/AppState.js:128-131 | A missing intermediate key gets `{}` filled along the rest of the path, and the other members stay. |
| AppState.SetWhereGetFinds | static/js/state/AppState.js:123-136 | A path that reads something other than `undefined` can always be set. |
| AppState.Store.constructor | static/js/state/AppState.js:14-38 | The store starts with the initial state object. |
| AppState.Store.Get | static/js/state/AppState.js:75-77 | `get(path)` returns the walk of the state along the path. |
| AppState.Store.Update | static/js/state/AppState.js:84-95 | When the old and new values serialise alike, or the set throws, nothing changes and nothing is emitted. Otherwise the state is `SetAt`, `path:changed` with the value and then `state:changed` with `{path, value, oldValue}` reach their listeners in that order, and `get(path)` returns the value. |
| AppState.AppStateClass.constructor | static/js/state/AppState.js:8 | There is no instance at first. |
| AppState.AppStateClass.New | static/js/state/AppState.js:43-49 | `new AppState()` throws once an instance exists. Otherwise it gives a fresh store with the initial state. |
| AppState.AppStateClass.GetInstance | static/js/state/AppState.js:55-60 | The first call creates the instance, and every call returns that same instance. |
| AppState.SingletonScenario | static/js/state/AppState.js:43-60 | Two `getInstance` calls give the same store, and a later `new AppState()` throws. |
| StateEvents.AddedMembers | static/js/state/StateEvents.js:17 | `Set.add` makes the callback a member and keeps the others and their order. It never duplicates, and adding twice is adding once. |
| StateEvents.RemovedMembers | static/js/state/StateEvents.js:22 | `Set.delete` removes exactly the callback and keeps the others without duplicates. It changes nothing for a non-member. |
| StateEvents.EachCalledOnce | static/js/state/StateEvents.js:34 | A registered callback occurs once in the set, so `emit` calls it once. |
| StateEvents.Registry.constructor | static/js/state/StateEvents.js:6 | The registry starts empty. |
| StateEvents.Registry.On | static/js/state/StateEvents.js:13-25 | Only the event's set changes: an unknown event gets one. The callback becomes a member without duplicates. The returned unsubscriber names the event and the callback. |
| StateEvents.Registry.Unsubscribe | static/js/state/StateEvents.js:19-24 | Removes only the callback from its event's set and keeps the set, even when empty. After `clear` it does nothing. |
| StateEvents.Registry.Emit | static/js/state/StateEvents.js:32-36 | Calls each callback of the event once, in insertion order, with the data. An unknown event calls nothing. |
| StateEvents.Registry.Clear | static/js/state/StateEvents.js:42-46 | Removes exactly the event's entry and leaves every other event's callbacks. |
| StateEvents.Registry.ClearAll | static/js/state/StateEvents.js:51-53 | No event has listeners. |
| StateEvents.SubscribeTwiceScenario | static/js/state/StateEvents.js:13-36 | A callback subscribed twice is called once. |
| StateEvents.UnsubscribeScenario | static/js/state/StateEvents.js:19-36 | After callback 1 unsubscribes, `emit` calls only the other listener, callback 2. |
| Text.ParseIntOfIntToString | static/js/managers/solution/SolutionPollingManager.js:99 | `parseInt` reads back every non-negative integer that Python's `str` writes, as the poller reads the seconds stored by the server. |

## Left out

- Threads, locks, queues with timeouts, `time.sleep` and the `duration` argument are not modelled as concurrency. Each worker thread is a method running its loop over the values it consumes. Each locked block is one atomic method. `start` is followed through to the end of its threads.
- RecordAndTranscript.WhisperTranscriber.Start, MicRecord.MicrophoneTranscriber.Start, WebAdapter.WebTranscriber.BackgroundRecording: the contracts describe one order only, where each queue is drained after the thread feeding it has finished. In the program the threads run together. `save_transcription_thread` exits once the stop flag is set and the text queue is empty for a moment (record_and_transcript.py:145, mic_record.py:181). A text still inside the Whisper call at that point (record_and_transcript.py:121-124) is then never written. `transcribe_thread` (record_and_transcript.py:103) can likewise exit before the last chunk is queued. Such texts can be lost, and the model does not capture that.
- WebAdapter.WebTranscriber.BackgroundRecording: models a run with a truthy `duration`. The start route passes `duration=None` unless the request gives one (server_modules/transcription.py:65,68). Then `start` sleeps forever (record_and_transcript.py:177-180), so the `finally` at web_adapter.py:117-119 is never reached and only `stop` (web_adapter.py:126-129) clears `is_recording`.
- PyAudio, the WAV and temporary files (including `os.unlink`, which web_adapter.py skips on success), `save_audio` and `cleanup` are devices and files; only the bytes and texts they carry are modelled.
- The Whisper, Anthropic and OpenAI calls and the API key checks of the record scripts are foreign calls. Each is a parameter: a reply or a failure.
- `datetime.now`, `strftime`, `strptime` and `int(datetime.now().timestamp())` are clocks. They are parameters.
- `json.loads` is a parameter giving an object or `None`. A reply whose brace span parses to a JSON value that is not an object is not modelled: `.get` then raises, and the outer handler returns `None`.
- Capture.ChunksPerBuffer: Python's `int(a / b)` is modelled as exact truncating division. The rounding of very large quotients by floating point is not modelled.
- Request bodies are dictionaries of strings. A JSON number in `record_seconds`, or a non-string `notes`, goes through the same paths but its own conversion is not modelled.
- Python's `lower` is modelled on ASCII letters only. `strip` uses the ASCII white space and `\x1c`-`\x1f`, `\x85`, `\xa0`, not every Unicode space.
- MicRecord.FindMicrophone: an exception PyAudio raises while the devices are listed, after the default device was found, is not modelled. Only a missing default device and the end of input give `None` there.
- `get_interview_data` (a deep copy of the whole store) and `getState` (a JSON round trip) are copies that no other modelled operation depends on.
- `store_claude_react_followup_solution` is imported by server_modules/solution.py but server_modules/config.py does not define it. The Claude React follow-up worker's storage is therefore not modelled; its request validation is.
- The `/api/solution/status` route that `pollForSolution` polls is not part of this model, so that poller's tick is not modelled; its timer bookkeeping is `StartPolling`.
- The `followup_solutions` field that the Claude React follow-up poller reads is not produced by `/api/solutions`. That tick is not modelled; its bookkeeping is `StartPolling`.
- Polling.SolutionPollingManager.FollowupTick: only the `solutions` object of the reply is modelled, not the `data.solutions || data` fallback to the reply's root.
- Polling.SolutionPollingManager.HandlePollingError: the exact new state is stated through `AppState.Store.UpdatedState`. The simpler clause that `isGenerating` reads back as `false` assumes that no truthy value serialises like `false` (`SerialisesFalseApart`), since `JSON.stringify` is a parameter.
- Polling.SolutionPollingManager.HandlePollingTimeout: the same as `HandlePollingError`.
- The `setInterval` and `setTimeout` scheduling is the browser's. Timer ids are parameters known to be fresh, and the callbacks are the tick methods.
- The error text the handlers write into the explanation tab, and the `showFollowupError` messages, are DOM output.
- AppState.SetAt: an array on the path is set through only at an existing index. Setting an array element beyond its length, or a named property of an array, is reported as a thrown error rather than modelled.
- `_setValueAtPath` is modelled on values. The in-place mutation and any aliasing of the objects inside the state with values held elsewhere are not captured.
- `JSON.stringify` is a parameter of the store. Its output format is not modelled.
- Members inherited from `Object.prototype` (`"toString" in current`) are not modelled. Only the own properties of objects and the indices of arrays are.
- JsValues.Member: an array's own `length` property is not modelled. A path ending in `length` at an array reads `undefined` in the model, where `current[key]` (static/js/state/AppState.js:113) gives the array's length. Setting a final `length` key, which resizes the array in JavaScript, is reported as a thrown error. A path that goes on past `length` reads `undefined` and throws on a set in both.
- Numbers are unbounded integers: `NaN`, fractions and `Infinity` are not JavaScript values of the model.
- What a callback does when `emit` calls it (including re-entrant `on`, `clear` or an exception that stops the `forEach`) is not modelled. A call is recorded as a delivery.
- The gemini_api modules, the prompt templates, the screenshot routes and capture, the boot code (server_modules/main.py, server.py), and the DOM managers are outside the modelled core.
- `debounce`, `formatDate` and `apiRequest` in utils.js are timers, locale formatting and `fetch`.
- A transcript record without a `timestamp` key cannot arise: only web_adapter.py appends records, always with both keys. The `KeyError` branch of the recent read is therefore not modelled.

## Findings

| source | as written | input that shows it | evidently intended | confidence | as-written member | corrected member |
|---|---|---|---|---|---|---|
| server_modules/transcription.py:8 | `from web_adapter import ..., is_recording` binds the module's name to the import-time value `False`; the start, stop and status routes read that copy | `POST /api/recording/start` then `GET /api/recording/status` gives `false`, and `POST /api/recording/stop` gives `not_recording` while the recording runs; a second start is accepted | the routes read web_adapter's live `is_recording` | not executed | Transcription.StopAfterStartAsWritten | Transcription.StopAfterStartLive |
| server_modules/solution.py:275 | the follow-up filter looks for `:followup:` in the key | after `store_followup_solution("screenshots/a.png", s, "claude")` stores key `screenshots/a.png:claude-followup:<seconds>`, `GET /api/solution/a.png` returns no follow-ups | the filter matches the keys config.py:75 writes (`-followup:`) | not executed | SolutionRoutes.LegacyFilterMissesFollowups | SolutionRoutes.CorrectedFilterFindsFollowups |
| static/js/managers/solution/SolutionPollingManager.js:79 | the standard poller looks for keys starting with `path + ":followup:"` | with only the key `p:claude-followup:100` stored, no tick selects it, so the poll ends only by its timeout | the prefix `path + ":claude-followup:"` that config.py:75 writes for Claude, as the Gemini poller at line 154 does for Gemini | not executed | Polling.StandardPollerNeverFinds | Polling.CorrectedPollerFindsLatest |
