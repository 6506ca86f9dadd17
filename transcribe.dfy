/**
 * The Transcribir handler: presign, PUT, start, poll, then the status
 * dispatch that decides what the panel shows. Every step consumes what the
 * previous one returned, and the first exception ends the handler.
 */
module Transcribe {
  import opened Wrappers
  import opened Text
  import opened Backend
  import opened Mime
  import opened Poller
  import opened Normalize

  /** What the panel shows once polling has returned. */
  datatype Screen =
    | Completed(transcript: string)   // "Transcripción lista." and the text
    | TimedOut                        // "Se agotó el tiempo de espera. ..."
    | JobFailed(reason: string)       // "Transcripción falló: <reason>"
    | JobNotFound                     // "Job no encontrado. ..."
    | Unknown(status: Option<string>) // "Estado: <status>"

  datatype Outcome =
    | NotSubmitted          // the button is disabled: no payload
    | Shown(screen: Screen)
    | Aborted(failure: Failure)
    | Unfinished            // the poll script ran out

  /** The status dispatch on the poll result. */
  function Dispatch(result: Json): (screen: Screen)
    ensures screen.Completed? <==> Status(result) == Some("COMPLETED")
    ensures screen.TimedOut? <==> Status(result) == Some("TIMEOUT")
    ensures screen.JobFailed? <==> Status(result) == Some("FAILED")
    ensures screen.JobNotFound? <==> Status(result) == Some("NOT_FOUND")
    ensures screen.Completed? ==> screen.transcript == GetOr(result, "transcript", "")
    ensures screen.JobFailed? ==> screen.reason == GetOr(result, "reason", "")
    ensures screen.Unknown? ==> screen.status == Status(result)
  {
    var status := Status(result);
    if status == Some("COMPLETED") then Completed(GetOr(result, "transcript", ""))
    else if status == Some("TIMEOUT") then TimedOut
    else if status == Some("FAILED") then JobFailed(GetOr(result, "reason", ""))
    else if status == Some("NOT_FOUND") then JobNotFound
    else Unknown(status)
  }

  /** The content type used for presign and PUT: `mime`, or `guess_mime(filename or "audio.wav")`. */
  function ContentType(u: Upload): (contentType: string)
    ensures contentType != ""
    ensures u.mime != "" ==> contentType == u.mime
    ensures u.mime == "" && u.filename != "" ==> contentType == GuessMime(u.filename)
    ensures u.mime == "" && u.filename == "" ==> contentType == "audio/wav"
  {
    if u.mime != "" then u.mime else GuessMime(if u.filename != "" then u.filename else "audio.wav")
  }

  /** The name sent to presign: `filename or "grabacion.wav"`. */
  function UploadName(u: Upload): (name: string)
    ensures name != ""
    ensures u.filename != "" ==> name == u.filename
    ensures u.filename == "" ==> GuessMime(name) == "audio/wav"
  {
    if u.filename != "" then u.filename else "grabacion.wav"
  }

  /** `presign["upload_url"]` and `presign["s3_key"]`, when the call succeeded and both are there. */
  function Slot(presign: Call): (slot: Option<(string, string)>)
    ensures slot.Some? <==> presign.Ok? && "upload_url" in presign.body && "s3_key" in presign.body
    ensures slot.Some? ==> slot.value == (presign.body["upload_url"], presign.body["s3_key"])
  {
    if presign.Ok? && "upload_url" in presign.body && "s3_key" in presign.body
    then Some((presign.body["upload_url"], presign.body["s3_key"]))
    else None
  }

  /** `start["job_name"]`, when the call succeeded and the field is there. */
  function JobName(start: Call): (job: Option<string>)
    ensures job.Some? <==> start.Ok? && "job_name" in start.body
    ensures job.Some? ==> job.value == start.body["job_name"]
  {
    if start.Ok? && "job_name" in start.body then Some(start.body["job_name"]) else None
  }

  /** A step that did not deliver: its exception, or the `KeyError` of a missing field. */
  function StepFailure(c: Call): Failure
  {
    if c.Ok? then Other else FailureOf(c)
  }

  /** What the handler ends with once polling has stopped. */
  function Finish(outcome: PollOutcome): Outcome
  {
    match outcome
    case Returned(result) => Shown(Dispatch(result))
    case Raised(failure) => Aborted(failure)
    case ScriptExhausted => Unfinished
  }

  /**
   * The handler. `presign`, `put` and `start` are the outcomes of the three
   * calls; `clockStart` and `script` drive the poll.
   */
  method Transcribe(u: Upload, presign: Call, put: Call, start: Call, clockStart: int, script: seq<Tick>)
    returns (outcome: Outcome, log: seq<Event>)
    ensures u.bytes.None? ==> outcome == NotSubmitted && log == []
    ensures u.bytes.Some? ==> |log| >= 1 && log[0] == Send(CreateUploadUrl(UploadName(u), ContentType(u)))
    ensures u.bytes.Some? && Slot(presign).None? ==>
              |log| == 1 && outcome == Aborted(StepFailure(presign))
    ensures u.bytes.Some? && Slot(presign).Some? ==>
              |log| >= 2 && log[1] == Send(PutObject(Slot(presign).value.0, u.bytes.value, ContentType(u)))
    ensures u.bytes.Some? && Slot(presign).Some? && !put.Ok? ==>
              |log| == 2 && outcome == Aborted(FailureOf(put))
    ensures u.bytes.Some? && Slot(presign).Some? && put.Ok? ==>
              |log| >= 3 && log[2] == Send(TranscribeStart(Slot(presign).value.1))
    ensures u.bytes.Some? && Slot(presign).Some? && put.Ok? && JobName(start).None? ==>
              |log| == 3 && outcome == Aborted(StepFailure(start))
    ensures u.bytes.Some? && Slot(presign).Some? && put.Ok? && JobName(start).Some? ==>
              var run := Poll(JobName(start).value, DefaultMaxSecs, clockStart, script);
              && log[3..] == PollLog(JobName(start).value, DefaultInterval, run)
              && outcome == Finish(run.outcome)
  {
    if u.bytes.None? {
      return NotSubmitted, [];
    }
    var data := u.bytes.value;
    var mime := u.mime;
    if mime == "" {
      mime := GuessMime(if u.filename != "" then u.filename else "audio.wav");
    }
    log := [Send(CreateUploadUrl(if u.filename != "" then u.filename else "grabacion.wav", mime))];
    if !presign.Ok? {
      return Aborted(FailureOf(presign)), log;
    }
    if "upload_url" !in presign.body || "s3_key" !in presign.body {
      return Aborted(Other), log;
    }
    var uploadUrl, s3Key := presign.body["upload_url"], presign.body["s3_key"];
    log := log + [Send(PutObject(uploadUrl, data, mime))];
    if !put.Ok? {
      return Aborted(FailureOf(put)), log;
    }
    log := log + [Send(TranscribeStart(s3Key))];
    if !start.Ok? {
      return Aborted(FailureOf(start)), log;
    }
    if "job_name" !in start.body {
      return Aborted(Other), log;
    }
    var jobName := start.body["job_name"];
    var polled, queries, pollLog := PollTranscription(jobName, DefaultMaxSecs, DefaultInterval, clockStart, script);
    log := log + pollLog;
    outcome := Finish(polled);
  }

  /**
   * The dispatch never reaches its "Estado" branch on what the poller
   * returns, and each screen is backed by the tick that stopped the loop.
   */
  lemma PollResultsDispatch(jobName: string, maxSecs: int, start: int, script: seq<Tick>)
    requires Poll(jobName, maxSecs, start, script).outcome.Returned?
    ensures var run := Poll(jobName, maxSecs, start, script);
            var screen := Dispatch(run.outcome.reply);
            var last := script[run.queries - 1];
            && !screen.Unknown?
            && (screen.TimedOut? <==> last.reply.Ok? && !IsTerminal(last.reply.body) && last.now - start > maxSecs)
            && (!screen.TimedOut? ==> last.reply == Ok(run.outcome.reply))
  {
    var run := Poll(jobName, maxSecs, start, script);
    var last := script[run.queries - 1];
    assert TickOutcome(jobName, maxSecs, start, last) == Some(run.outcome);
    assert Status(TimeoutReply(jobName)) == Some("TIMEOUT");
  }

  /**
   * The upload section followed by a click on Transcribir. The backend never
   * receives raw AAC, and a payload that could not be converted sends nothing.
   */
  method UploadAndTranscribe(data: seq<byte>, name: string, declared: Option<string>, haveFfmpeg: bool,
                             toM4a: seq<byte> -> Option<seq<byte>>, toMp3: seq<byte> -> Option<seq<byte>>,
                             presign: Call, put: Call, start: Call, clockStart: int, script: seq<Tick>)
    returns (outcome: Outcome, log: seq<Event>)
    ensures IsRawAac(name, UploadedMime(declared, name)) && (!haveFfmpeg || (toM4a(data).None? && toMp3(data).None?)) ==>
              outcome == NotSubmitted && log == []
    ensures |log| > 0 ==> log[0].Send? && log[0].request.CreateUploadUrl? &&
                          !IsRawAac(log[0].request.filename, log[0].request.contentType)
    ensures |log| > 1 ==> log[0].Send? && log[1].Send? && log[1].request.PutObject? &&
                          log[1].request.contentType == log[0].request.contentType
  {
    var u, attempts := ReceiveUpload(data, name, declared, haveFfmpeg, toM4a, toMp3);
    outcome, log := Transcribe(u, presign, put, start, clockStart, script);
    if u.bytes.Some? && u.filename == "" {
      assert Lower(UploadName(u))[|UploadName(u)| - 4..] == ".wav";
    }
  }

  /**
   * Polling job "job-1" with the handler's defaults: two RUNNING replies
   * within the deadline and then COMPLETED with "hola mundo" end on the
   * screen showing that transcript.
   */
  lemma HolaMundoScenario(clockStart: int)
    ensures var running := Tick(Ok(map["status" := "RUNNING"]), clockStart + 2);
            var done := Tick(Ok(map["status" := "COMPLETED", "transcript" := "hola mundo"]), clockStart + 4);
            Finish(Poll("job-1", DefaultMaxSecs, clockStart, [running, running, done]).outcome)
            == Shown(Completed("hola mundo"))
  {
    var running := Tick(Ok(map["status" := "RUNNING"]), clockStart + 2);
    var reply := map["status" := "COMPLETED", "transcript" := "hola mundo"];
    var script := [running, running, Tick(Ok(reply), clockStart + 4)];
    assert Status(running.reply.body) == Some("RUNNING");
    assert Status(reply) == Some("COMPLETED");
    CompletesAfterLiveTicks("job-1", DefaultMaxSecs, DefaultInterval, clockStart, script, 2, reply);
    assert GetOr(reply, "transcript", "") == "hola mundo";
  }
}
