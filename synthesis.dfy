/**
 * The "Generar audio" handler: reject blank text locally, request a
 * synthesis, then fetch the audio at the returned URL and label it with the
 * type of the requested format.
 */
module Synthesis {
  import opened Wrappers
  import opened Text
  import opened Backend

  datatype Voice = Lucia | Conchita | Mia | Miguel | Penelope
  datatype Engine = Neural | Standard
  datatype Format = Mp3 | OggVorbis

  function VoiceId(v: Voice): string
  {
    match v
    case Lucia => "Lucia"
    case Conchita => "Conchita"
    case Mia => "Mia"
    case Miguel => "Miguel"
    case Penelope => "Penelope"
  }

  function EngineName(e: Engine): string
  {
    match e
    case Neural => "neural"
    case Standard => "standard"
  }

  function FormatName(f: Format): string
  {
    match f
    case Mp3 => "mp3"
    case OggVorbis => "ogg_vorbis"
  }

  /** `"audio/mpeg" if fmt == "mp3" else "audio/ogg"`. */
  function OutputMime(f: Format): (mime: string)
    ensures mime == "audio/mpeg" <==> f == Mp3
    ensures mime == "audio/ogg" <==> f == OggVorbis
  {
    if FormatName(f) == "mp3" then "audio/mpeg" else "audio/ogg"
  }

  datatype Outcome =
    | EmptyText                            // "Escribe un texto primero."
    | Aborted(failure: Failure)
    | NoAudioUrl                           // "No se recibió URL de audio."
    | Audio(bytes: seq<byte>, mime: string)

  /** `resp.get("audio_url")` when it is truthy. */
  function AudioUrl(reply: Json): (url: Option<string>)
    ensures url.Some? <==> "audio_url" in reply && reply["audio_url"] != ""
    ensures url.Some? ==> url.value == reply["audio_url"]
  {
    if "audio_url" in reply && reply["audio_url"] != "" then Some(reply["audio_url"]) else None
  }

  /**
   * The handler. `synth` is the outcome of the synthesis request; `fetch` the
   * body of the GET of the audio URL, `None` when that GET raises.
   */
  method GenerateAudio(text: string, voice: Voice, engine: Engine, format: Format, synth: Call, fetch: Option<seq<byte>>)
    returns (outcome: Outcome, log: seq<Event>)
    ensures Blank(text) ==> outcome == EmptyText && log == []
    ensures !Blank(text) ==>
              |log| >= 1 && log[0] == Send(PollySynthesize(text, VoiceId(voice), EngineName(engine), FormatName(format)))
    ensures !Blank(text) && !synth.Ok? ==> |log| == 1 && outcome == Aborted(FailureOf(synth))
    ensures !Blank(text) && synth.Ok? && AudioUrl(synth.body).None? ==> |log| == 1 && outcome == NoAudioUrl
    ensures !Blank(text) && synth.Ok? && AudioUrl(synth.body).Some? ==>
              && log == [log[0], Send(FetchAudio(AudioUrl(synth.body).value))]
              && outcome == (if fetch.Some? then Audio(fetch.value, OutputMime(format)) else Aborted(Other))
    ensures outcome.Audio? ==> (outcome.mime == "audio/mpeg" <==> format == Mp3)
    ensures outcome.Audio? ==> (outcome.mime == "audio/ogg" <==> format == OggVorbis)
  {
    StripEmptyIffBlank(text);
    if Strip(text) == [] {
      return EmptyText, [];
    }
    log := [Send(PollySynthesize(text, VoiceId(voice), EngineName(engine), FormatName(format)))];
    if !synth.Ok? {
      return Aborted(FailureOf(synth)), log;
    }
    var url := Get(synth.body, "audio_url");
    if url.None? || url.value == "" {
      return NoAudioUrl, log;
    }
    log := log + [Send(FetchAudio(url.value))];
    if fetch.None? {
      return Aborted(Other), log;
    }
    outcome := Audio(fetch.value, OutputMime(format));
  }
}
