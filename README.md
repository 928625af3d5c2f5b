# Channel buffer and flush pipeline

This project models the message pipeline of a Slack memory assistant.

The web handler `slack_events` accepts chat messages. For each one it:

- appends the message as a JSON string to the Redis list `buffer:{channel}`;
- stamps `active:{channel}` with the current time;
- schedules a deferred worker task with a countdown.

The worker task `process_channel_buffer` then:

1. skips when the channel was active less than 280 seconds ago;
2. otherwise drains the list oldest-first, in chunks of at most 500 entries;
3. has each chunk summarised into notes by a language model and calls `upsert_note` once per note;
4. trims the chunk off the list whether or not it decoded or gave notes;
5. deletes the activity marker and reports how many notes it handed to `upsert_note`.

`ask_question` answers from two sources: the newest 50 buffered messages and the notes retrieved for the question.

## Modules

- `values.dfy` (`Values`): decoded JSON values as Python sees them; `sep.join`, which the code uses to build its texts; and `s.split`, which the code never calls, used only in lemmas that read a joined text back into lines.
  - `Field` distinguishes a missing key from `null`. `d.get(k, default)` applies the default only to a missing key, and an f-string shows `null` as `None`.
  - Decoding a buffered string is a partial function: an `Entry` is either a decodable message object or garbled.
- `redis_list.dfy` (`RedisList`): `LRANGE 0 n-1`, `LTRIM k -1` and `LRANGE -n -1` as functions on the list's contents.
- `store.dfy` (`Store`): the Redis keys shared by both processes, as a class.
  - A list key disappears when it becomes empty.
  - A ghost record holds every task invocation handed to the broker, with the time its countdown ends.
- `knowledge_index.dfy` (`KnowledgeIndex`): the vector index as the sequence of `upsert_note` calls made on it.
- `ai.dfy` (`Ai`): transcript, hot-context and cold-context formatting, the blank-transcript short-circuit, the answer prompt's layout and the error fallback.
- `worker.dfy` (`Worker`): the debounce check and the chunked drain loop, as methods on the store and the index.
  - They are proved against the specification functions `Chunks`, `DrainLog` and `NotesSaved`.
  - Chunk `k` of a run is stamped with `clock(k)`.
  - `reply` stands for the extraction model together with `json.loads` of its answer.
- `api.dfy` (`Api`): the event filter, the handler, the debounce invariant linking the handler to the worker, the hot window and `ask_question`.

## The countdown and the threshold

The countdown and the silence threshold do not match what the comments say:

- The handler schedules each attempt with a 20-second countdown (app/main.py:64).
- The worker skips unless 280 seconds have passed since the latest message (app/worker.py:44).
- The comments speak of five minutes (app/main.py:61, app/worker.py:42-43).

The model follows the code: `COUNTDOWN` is 20 and `SILENCE_THRESHOLD` is 280. Three lemmas prove the consequence:

- `Api.OnTimeAttemptSkips`: an attempt delivered on time after the latest append always skips. It uses the invariant `Armed`, which both `Api.SlackEvents` and a flush attempt (`Api.FlushAttempt`) preserve.
- `Api.LatestAttemptProceedsIff`: such an attempt proceeds if and only if the countdown is at least the threshold.
- `Api.AcceptedMessageThenOnTimeAttempt`: the same fact as a concrete scenario.

So on-time delivery alone never flushes a channel whose marker is set.

## Model

| member | source | states |
|---|---|---|
| Values.DecodeAll | app/worker.py:63-69 | Parsing a chunk succeeds exactly when every entry decodes, and then yields one message per entry, in order. |
| RedisList.Front | app/worker.py:52-54 | For a positive count n, the read takes the first min(n, length) entries, a prefix of the list. |
| RedisList.TrimFront | app/worker.py:90-95 | Trimming k keeps everything after the first k entries, in order, and leaves nothing when k is past the end. |
| RedisList.Last | app/main.py:83 | For a positive count n, the suffix read gives the last min(n, length) entries, a suffix of the list. |
| RedisList.FrontThenTrim | app/worker.py:95 | Trimming exactly as many entries as were read removes precisely what was read. |
| RedisList.TailPushSurvivesTrim | app/worker.py:95 | An entry pushed at the tail between the read and the trim survives the trim. |
| Store.ChannelStore.RPush | app/main.py:54 | Appends at the tail of one channel's list; earlier entries, other lists, markers and schedule unchanged. |
| Store.ChannelStore.LTrim | app/worker.py:95 | Keeps the list from index k on, and deletes the key when nothing is left; nothing else changes. |
| Store.ChannelStore.SetActive | app/main.py:58 | Overwrites one channel's marker, so the latest write wins; nothing else changes. |
| Store.ChannelStore.DeleteActive | app/worker.py:102 | Removes one channel's marker; nothing else changes. |
| Store.ChannelStore.ApplyAsync | app/main.py:64 | Records exactly one deferred invocation for the channel, firing at the given time. |
| KnowledgeIndex.NoteIndex.UpsertNote | app/worker.py:79-84 | Records one call with the channel, text, type and timestamp passed. |
| Ai.TranscriptBlankIff | app/ai.py:47-50 | The transcript is blank exactly when the message list is empty, because every line holds a colon. |
| Ai.TranscriptOneLinePerMessage | app/ai.py:47 | When the list is non-empty and no author or text holds a newline, the transcript splits back into one "user: text" line per message, in order, with "Unknown" and "" only for missing keys. |
| Ai.Summarize | app/ai.py:41-64 | No notes for an empty list; no notes whenever generation or decoding fails; otherwise the decoded reply. |
| Ai.HotContext | app/ai.py:77 | Fails exactly when some message lacks "user" or "text"; otherwise equals the transcript of the messages. |
| Ai.ColdContextOneLinePerNote | app/ai.py:78 | When the list is non-empty and no note text or type holds a newline, the cold context splits back into one "- text (Type: type)" line per retrieved note, in order. |
| Ai.PromptSectionsInOrder | app/ai.py:80-97 | Long-term memory precedes short-term memory, which precedes the question, each exactly where its header ends. |
| Ai.GenerateAnswer | app/ai.py:69-103 | Raises exactly when a hot message lacks a key; otherwise the model's text, or the error prefix followed by the failure's text. |
| Worker.ChunksPartition | app/worker.py:51-95 | The chunks, concatenated in processing order, are the buffer; each is non-empty and at most 500 long, all but the last are full, and there are ceil(n/500) of them. |
| Worker.TwelveHundredMessagesMakeThreeChunks | app/worker.py:54 | 1200 buffered messages give chunks of 500, 500 and 200. |
| Worker.DecodedChunkConsultsModel | app/worker.py:57-73 | A decodable chunk the drain takes always reaches the extraction model. |
| Worker.StampOneCallPerNote | app/worker.py:75-85 | One upsert call per note, in note order, each with the channel, the note's text and type, and the chunk's single timestamp. |
| Worker.DrainLogCountsNotes | app/worker.py:78-85 | The reported total equals the number of upsert calls made. |
| Worker.InterleavedAttemptsSkipSecondChunk | app/worker.py:54-95 | Two overlapping attempts read the same first chunk and their two trims also remove the unread second chunk. |
| Worker.DrainStep | app/worker.py:51-95 | Each turn keeps "processed chunks, then the remaining buffer" equal to the original buffer, and shortens the buffer. |
| Worker.DrainLogStep | app/worker.py:51-95 | The calls and the count still to come start with the first chunk's. |
| Worker.SaveNotes | app/worker.py:77-85 | Saving a chunk's notes appends exactly its stamped upsert calls to the index. |
| Worker.SaveChunk | app/worker.py:62-88 | A chunk that does not decode saves nothing; otherwise each of its notes is handed to `upsert_note`; the count returned is the number of those calls. |
| Worker.ProcessChunk | app/worker.py:54-95 | The chunk read is trimmed whatever happened to it, other keys stay as they were, and the calls and count still to come shrink by exactly this chunk's. |
| Worker.Drain | app/worker.py:49-99 | The loop empties and deletes the buffer, leaves other keys alone, makes exactly the calls of `DrainLog` over the buffer's chunks and returns their note count. |
| Worker.ProcessChannelBuffer | app/worker.py:26-104 | Skips with nothing changed when the marker is under 280 s old; otherwise (including no marker) drains the buffer, deletes the marker and reports the number of notes handed to `upsert_note`. |
| Api.Stored | app/main.py:41-53 | A missing event key is written to the buffer as null, a present value is written as it is, and either displays as the event's value did. |
| Api.Classify | app/main.py:30-53 | URL verification first; a non-object event raises; a truthy bot_id is ignored; only a "message" with no truthy subtype is buffered, as the message object of its user, text and ts with a missing key written as null. |
| Api.Reply | app/main.py:30-66 | A handshake answers with the body's own challenge, a bot with "ignored_bot", everything else that does not raise with "ok". |
| Api.SlackEvents | app/main.py:20-66 | An accepted message is appended at the tail, the marker is overwritten with now, and one attempt is scheduled 20 s later; other bodies change nothing; well-formed buffers and the `Armed` invariant are kept. |
| Api.FlushAttempt | app/worker.py:26-104 | A flush attempt skips with nothing changed when the marker is under 280 s old, and otherwise drains and deletes the buffer, deletes the marker, makes the `DrainLog` upsert calls and reports their count; either way every pending attempt stays armed and the remaining buffers stay well formed. |
| Api.ArmedAfterFlush | app/worker.py:102 | Deleting a marker keeps every pending attempt armed. |
| Api.FromIngressAfterFlush | app/worker.py:95 | Removing a drained buffer keeps the other buffers well formed. |
| Api.OnTimeAttemptSkips | app/main.py:64 | An armed attempt run when its countdown ends, while the marker exists, fails the silence check. |
| Api.LatestAttemptProceedsIff | app/worker.py:44 | The attempt of the latest message proceeds on time if and only if the countdown is at least 280 s, so never with 20 s. |
| Api.AcceptedMessageThenOnTimeAttempt | app/main.py:58-64 | A message accepted, then its attempt delivered on time: the attempt skips, the message stays buffered, no `upsert_note` call is made. |
| Api.HotWindow | app/main.py:83 | The hot window is the newest min(50, n) entries, in original order. |
| Api.TenMessagesReadWhole | app/main.py:83 | A 10-message buffer is read whole. |
| Api.NewestMessageInWindow | app/main.py:83 | The newest message is always the window's last entry, and a full window slides by one. |
| Api.Answer | app/main.py:84-91 | Fails with an undecodable entry exactly when the window holds one; otherwise answers as generate_answer does. |
| Api.AskQuestion | app/main.py:69-93 | Reads the window of the channel's buffer without changing it; fails exactly when the window holds an undecodable entry, and otherwise answers as generate_answer does on the decoded window; never fails over buffers the handler wrote. |
| Api.WindowFromIngress | app/main.py:49-54 | Every entry of a handler-written window is a decodable message with user and text keys. |
| Api.AnswerFromWellFormedWindow | app/ai.py:77-103 | A well-formed window always gets an answer: the model's text or the error prefix and failure text, for a prompt built from the window's transcript. |
| Api.StoredLineShowsEvent | app/main.py:49-53 | A stored message's transcript line shows the event's user and text as they were; a missing user reads "None", not "Unknown". |

## Left out

- Redis, Celery, Pinecone and Gemini client setup and network calls. The store is in-memory state and the models are function parameters.
- A failed `upsert_note` is silent: a failed embedding or a failed upsert returns False without storing anything, and the worker ignores that result and still counts the note. The model records each call, so `Worker.NotesSaved` counts notes handed to `upsert_note`, not notes stored.
- A buffered string that decodes to a JSON value other than an object (a number, a list, a string). The worker's safety valve does not catch it: `m.get` raises outside the `try` of `summarize_messages`, so the task dies before the trim and the chunk stays at the head of the buffer for every later attempt; `ask_question` raises on it too. The handler never writes such an entry, and `Entry` has no constructor for it.
- `app/db.py` is not part of this model. `upsert_note` is recorded as a call, and `search_notes` is the `cold` parameter of `Api.AskQuestion`.
- The prompt wording around the transcript and the instructions after the question (app/ai.py:15-38, app/ai.py:52, app/ai.py:80-97). They are fixed text folded into the `reply` and `synth` oracles. The prompt's indentation is not reproduced.
- The note shape returned by the model. `reply` yields well-formed `type`/`text` notes. A reply that decodes to something else, or a note missing a key, would raise inside the worker; that path is not modelled.
- The tenacity retry around `summarize_messages`. Its body catches every failure from generation and decoding, so no retry is modelled.
- `time.sleep(2)` between chunks, and Celery's delivery timing beyond the time an attempt fires.
- Wall-clock times are whole seconds (`int`), not floats. `time.time()` is the `now` and `clock` parameters.
- JSON encoding and decoding internals. Only the values decoding yields are modelled, and only string or null field values.
- Concurrency. Overlapping worker runs and a push between a read and a trim are covered only by `RedisList.TailPushSurvivesTrim` and `Worker.InterleavedAttemptsSkipSecondChunk`; no interleaved execution is modelled.
- A webhook body that is not a JSON object. Only a non-object `event` is modelled (`Action.Fail`).
- `str.strip` is modelled with its ASCII whitespace: space, tab to carriage return, and 0x1C to 0x1F. Non-ASCII whitespace is not modelled.
- The task's success string is the `Completed(saved)` outcome rather than formatted text.
- The health endpoint and the logging `print` calls.
