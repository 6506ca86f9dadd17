# Transcribe & TTS client — a Dafny model of its orchestration logic

The client (`app.py`, a Streamlit page) lets a user upload audio, turns raw
AAC into a container the backend accepts, uploads the payload through a
presigned URL, starts a transcription job and polls it to a terminal status;
a second panel sends text to a speech-synthesis action and fetches the audio.
This project models that logic in Dafny and proves what it promises:

- `Mime`: `guess_mime`, its suffix table, and the choice `up.type or guess_mime(up.name)`.
- `Poller`: `poll_transcription` as a loop over a script of backend replies and
  clock readings, proved equal to the recursive specification `Poll` and its
  event log `PollLog`.
- `Normalize`: the `.aac` block (ffmpeg check, stream copy to M4A, fallback to
  MP3, drop), with the converters and the ffmpeg check as supplied oracles.
- `Transcribe`: the Transcribir handler (presign → PUT → start → poll) and the
  status dispatch, plus the upload section and the handler run one after the other.
- `Synthesis`: the "Generar audio" handler.
- `Text`, `Backend`, `Wrappers`: the Python string built-ins used, the request
  vocabulary, and `Option`.

Each handler receives the outcome of each backend call as data (`Call`: a 2xx
body, an HTTP error, or any other exception) and returns the log of requests
it sent and sleeps it took, so "which step received which value" and "nothing
is sent after a failure" are statements about that log.

The audio fetch of the synthesis panel (`app.py:221`) does not check the HTTP
status, so a non-2xx answer is not an error there; only an exception of the
GET is (`Synthesis.GenerateAudio`, `fetch == None`).

## Model

| member | source | states |
|---|---|---|
| `Mime.GuessMime` | app.py:46-55 | the classifier is total and never yields an empty type |
| `Mime.SuffixesExclusive` | app.py:48-54 | no name ends with two suffixes of the table, so the order of the tests does not matter |
| `Mime.GuessMimeListed` | app.py:46-54 | a name whose lower-cased form ends with a listed suffix gets that suffix's type (`.ogg`/`.opus` → `audio/ogg`, `.mp4`/`.m4a` → `audio/mp4`, …) |
| `Mime.GuessMimeUnlisted` | app.py:55 | any other name, the empty one included, gets `application/octet-stream` |
| `Mime.GuessMimeIgnoresCase` | app.py:47 | the result depends only on the lower-cased name |
| `Mime.GuessMimeOfSuffixedName` | app.py:47-54 | stem + listed suffix is classified by that suffix whatever the stem |
| `Mime.UploadedMime` | app.py:126 | a non-empty declared type wins; otherwise the name is classified; the result is never empty |
| `Text.LastDot` | app.py:137 | the index found holds a `.` and no later character does; none is found only when the name has no `.` |
| `Text.Stem` | app.py:137 | `rsplit(".", 1)[0]`: a prefix of the name ending just before its last `.`, or the whole name when it has no `.` |
| `Text.StripEmptyIffBlank` | app.py:205 | `not text.strip()` holds exactly when every character is white space |
| `Backend.Get` | app.py:36 | `dict.get` yields a value exactly when the key is present, and that key's value |
| `Poller.TickOutcome` | app.py:35-43 | one iteration: a failing query raises its error; a terminal reply is returned whatever the clock says; a live reply past the deadline gives the synthetic TIMEOUT; only a live reply within the deadline continues |
| `Poller.Poll` | app.py:31-43 | the loop stops at the first tick that is an exception, a terminal reply or a live reply past the deadline; every earlier tick was live and within the deadline; the query count is that tick's position + 1 |
| `Poller.Rounds` | app.py:35-43 | n rounds alternate one status query for the job and one sleep of the interval |
| `Poller.PollLog` | app.py:34-43 | a run queries once per tick read and sleeps after every query except the one that ended it, so no query follows the return |
| `Poller.PollTranscription` | app.py:31-43 | the loop's outcome, query count and events are those of `Poll` and `PollLog` |
| `Poller.TerminalReplyReturnedUnchanged` | app.py:37-41 | a COMPLETED/FAILED/NOT_FOUND reply is returned unchanged after k + 1 queries even when its tick is past the deadline |
| `Poller.AlwaysLiveTimesOut` | app.py:34-43 | live ticks within the deadline, then a live tick past it: the synthetic TIMEOUT reply after n + 1 queries and n sleeps |
| `Poller.TimeoutOnlyPastDeadline` | app.py:41-42 | a TIMEOUT result is always the synthetic `{status, job_name}` reply, produced at a live tick past the deadline |
| `Poller.CompletesAfterLiveTicks` | app.py:34-43 | N live ticks within the deadline then COMPLETED: exactly N + 1 queries, N sleeps, the COMPLETED reply returned |
| `Poller.BackendFailureEndsAtOnce` | app.py:39-40 | FAILED or NOT_FOUND first: one query, no sleep, reply returned as is |
| `Normalize.RawAacMatchesClassifier` | app.py:129 | the conversion trigger fires exactly when `guess_mime` reads the name as `audio/aac` or the type is `audio/aac` |
| `Normalize.NormalizeAac` | app.py:128-149 | not AAC: unchanged; no ffmpeg: payload dropped, nothing tried; else M4A first (stem + `.m4a`, `audio/mp4`), MP3 only if M4A fails (stem + `.mp3`, `audio/mpeg`), both failing drops the payload; bytes, name and type change together; a kept payload is never AAC |
| `Normalize.RenamedIsNotAac` | app.py:137-145 | a renamed `.m4a`/`.mp3` file no longer matches the `.aac` test |
| `Normalize.ConvertedNamesClassify` | app.py:137-145 | the new name and the new type agree with `guess_mime` |
| `Normalize.RenamedReplacesExtension` | app.py:137 | only the last extension is replaced; a name without `.` keeps its whole name as stem |
| `Normalize.ReceiveUpload` | app.py:124-149 | the chosen type is never empty; a non-AAC file is kept as read; AAC becomes stem + `.m4a` / `audio/mp4` when stream copy works, else stem + `.mp3` / `audio/mpeg` when re-encoding works, with the converter's bytes; the payload is dropped exactly when AAC could not be converted; the result is never AAC; no conversion is attempted without ffmpeg or for a non-AAC file, M4A alone when it works, otherwise M4A then MP3 |
| `Transcribe.Dispatch` | app.py:179-191 | each of the four known statuses maps to its own screen, with `transcript` / `reason` defaulting to `""`; anything else shows the reply's own status |
| `Transcribe.ContentType` | app.py:155-156 | the type sent is never empty: the payload's type if set, otherwise the name classified, and `audio/wav` when the name is missing too |
| `Transcribe.UploadName` | app.py:161 | the name sent is never empty: the payload's name if set, otherwise a name the classifier reads as `audio/wav` |
| `Transcribe.Slot` | app.py:164-165 | a slot exists exactly when presign succeeded with both `upload_url` and `s3_key`, and it holds those two values |
| `Transcribe.JobName` | app.py:175 | a job handle exists exactly when start succeeded with `job_name`, and it is that value |
| `Transcribe.Transcribe` | app.py:153-191 | no payload: nothing sent; presign carries the name and content type; PUT goes to presign's `upload_url` with the same content type and the payload; start carries presign's `s3_key`; polling uses start's `job_name` with 120 s / 2 s; the first failing step ends the handler with its error and nothing after it is sent |
| `Transcribe.PollResultsDispatch` | app.py:178-191 | the "Estado" branch is unreachable on a poll result; TIMEOUT is shown exactly when a live tick passed the deadline, any other screen shows the backend's own reply |
| `Transcribe.UploadAndTranscribe` | app.py:124-168 | the backend never receives a name or type that reads as AAC; a payload that could not be converted sends no request |
| `Transcribe.HolaMundoScenario` | app.py:178-183 | a poll of job "job-1" seeing RUNNING, RUNNING, COMPLETED("hola mundo") within the deadline ends on the screen showing "hola mundo" |
| `Synthesis.AudioUrl` | app.py:216-217 | a URL is taken exactly when `audio_url` is present and non-empty |
| `Synthesis.OutputMime` | app.py:222 | the label is `audio/mpeg` exactly for mp3 and `audio/ogg` exactly for ogg_vorbis |
| `Synthesis.GenerateAudio` | app.py:204-223 | blank text sends nothing; otherwise one synthesis request with text, voice, engine and format; a failure or a missing URL stops before any fetch; the fetched bytes are labelled `audio/mpeg` exactly for mp3 and `audio/ogg` exactly for ogg_vorbis |

## Left out

- HTTP transport (`api_post_json`, `upload_to_presigned`, `requests.get`, app.py:22-29, 221) and its 60 s / 120 s timeouts: each call is a supplied `Call` outcome.
- The ffmpeg subprocess, its temporary files and their best-effort cleanup (`aac_to_m4a`, `aac_to_mp3`, app.py:60-96) and `have_ffmpeg` (app.py:57-58): they are oracles (`toM4a`, `toMp3`, `haveFfmpeg`); temporary-file hygiene is not modelled.
- Wall-clock time and `time.sleep` (app.py:32, 41, 43): the clock is a start reading plus one reading per tick; the sleep is a `Sleep(interval)` event with an integer interval (the default 2.0 s is 2).
- `Poller.PollTranscription`: the interval is a `nat`. Python's `time.sleep` raises `ValueError` on a negative interval (app.py:43); that case is not modelled because the only call passes 2.0 (app.py:178).
- `Poller.PollTranscription`: when its script of ticks runs out it stops with `ScriptExhausted`, whereas the Python loop would keep querying; the script length is the bound that makes the loop terminate.
- Streamlit UI: page layout, radios, uploader, spinners, messages, audio previews (`if audio_bytes: st.audio`), and the recording path with its optional recorder import (app.py:14-19, 108-118). The recording path sets `grabacion.wav` / `audio/wav` (app.py:114-115) and is not modelled. The Transcribir handler's own fallbacks `guess_mime(filename or "audio.wav")` and `filename or "grabacion.wav"` (app.py:155-156, 161) are modelled as `Transcribe.ContentType` and `Transcribe.UploadName`. No path through the page reaches the type fallback, because an upload always has a non-empty type (`Normalize.ReceiveUpload`) and so does a recording.
- `API_URL` (app.py:11) and the contents of audio payloads (opaque byte sequences).
- `Text.Lower` folds ASCII letters only; Python's `str.lower` folds all Unicode letters, none of which lowers to a character of the table's suffixes.
- JSON values are strings; Python's `None` and `""` both appear as `""` or `None` where only their falsiness matters (`mime`, `filename`, `audio_url`).
