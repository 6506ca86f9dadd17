/**
 * What the client exchanges with the remote API: JSON replies, the outcome
 * of one HTTP call, and the requests it sends. Transport itself is not
 * modelled; each call's outcome is supplied by the caller of a handler, and
 * each handler returns the log of the requests it issued.
 */
module Backend {
  import opened Wrappers

  newtype byte = x: int | 0 <= x < 256

  /** A decoded JSON object; values are kept as strings. */
  type Json = map<string, string>

  /** `reply.get(key)`. */
  function Get(reply: Json, key: string): (v: Option<string>)
    ensures v.Some? <==> key in reply
    ensures v.Some? ==> v.value == reply[key]
  {
    if key in reply then Some(reply[key]) else None
  }

  /** `reply.get(key, default)`. */
  function GetOr(reply: Json, key: string, default: string): string
  {
    if key in reply then reply[key] else default
  }

  /** `reply.get("status")`. */
  function Status(reply: Json): Option<string>
  {
    Get(reply, "status")
  }

  /**
   * The outcome of one request: a 2xx reply with its decoded body, a non-2xx
   * reply (`requests.HTTPError` from `raise_for_status`), or any other
   * exception (connection error, timeout, undecodable body).
   */
  datatype Call = Ok(body: Json) | HttpError(code: int, text: string) | Failed

  /** How an aborted handler reports the exception that stopped it. */
  datatype Failure =
    | Http(code: int, text: string)  // "Error HTTP: <code> - <text>"
    | Other                          // "Error: <exception>"

  /** The failure a non-2xx or failed call raises. */
  function FailureOf(c: Call): Failure
    requires !c.Ok?
  {
    match c
    case HttpError(code, text) => Http(code, text)
    case Failed => Other
  }

  /** Requests the client sends, with the fields it puts in each. */
  datatype Request =
    | CreateUploadUrl(filename: string, contentType: string)         // action create_upload_url
    | PutObject(url: string, body: seq<byte>, contentType: string)   // PUT to the presigned URL
    | TranscribeStart(s3Key: string)                                 // action transcribe_start
    | TranscribeResult(jobName: string)                              // action transcribe_result
    | PollySynthesize(text: string, voiceId: string, engine: string, format: string)
    | FetchAudio(url: string)                                        // GET of the synthesised audio

  /** One observable step of a handler: a request sent, or a pause between polls. */
  datatype Event = Send(request: Request) | Sleep(seconds: nat)
}
