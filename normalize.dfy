/**
 * The upload path of the Transcribir panel before the button: read the
 * uploaded file, pick its media type, and repackage raw AAC into M4A (stream
 * copy) or, failing that, re-encode it to MP3. The converters and the
 * presence of ffmpeg are supplied: each converter answers `None` where the
 * real one raises.
 */
module Normalize {
  import opened Wrappers
  import opened Text
  import opened Backend
  import opened Mime

  /**
   * The locals `audio_bytes`, `filename` and `mime` after the upload
   * section; `bytes == None` keeps the Transcribir button disabled.
   */
  datatype Upload = Upload(bytes: Option<seq<byte>>, filename: string, mime: string)

  /** The conversions attempted, in order. */
  datatype Conversion = ToM4a | ToMp3

  /** The test that triggers conversion: a `.aac` name in any case, or type `audio/aac`. */
  predicate IsRawAac(filename: string, mime: string)
  {
    EndsWith(Lower(filename), ".aac") || mime == "audio/aac"
  }

  /**
   * The trigger agrees with the classifier: it fires for every name
   * `guess_mime` reads as `audio/aac`, and otherwise only for the declared
   * type `audio/aac`.
   */
  lemma RawAacMatchesClassifier(filename: string, mime: string)
    ensures IsRawAac(filename, mime) <==> GuessMime(filename) == "audio/aac" || mime == "audio/aac"
  {
    if EndsWith(Lower(filename), ".aac") {
      GuessMimeListed(filename, 8);
    }
  }

  /** What the backend may receive: a payload that is not raw AAC by name or by type. */
  predicate Uploadable(u: Upload)
  {
    u.bytes.Some? ==> !IsRawAac(u.filename, u.mime)
  }

  /** A name with its last extension replaced, as `filename.rsplit(".", 1)[0] + ext` does. */
  function Renamed(filename: string, ext: string): string
  {
    Stem(filename) + ext
  }

  /** The `.aac` block, run on the file just read with the type just chosen. */
  method NormalizeAac(data: seq<byte>, filename: string, mime: string, haveFfmpeg: bool,
                      toM4a: seq<byte> -> Option<seq<byte>>, toMp3: seq<byte> -> Option<seq<byte>>)
    returns (u: Upload, attempts: seq<Conversion>)
    ensures !IsRawAac(filename, mime) ==> u == Upload(Some(data), filename, mime) && attempts == []
    ensures IsRawAac(filename, mime) && !haveFfmpeg ==> u == Upload(None, filename, mime) && attempts == []
    ensures IsRawAac(filename, mime) && haveFfmpeg && toM4a(data).Some? ==>
              u == Upload(toM4a(data), Renamed(filename, ".m4a"), "audio/mp4") && attempts == [ToM4a]
    ensures IsRawAac(filename, mime) && haveFfmpeg && toM4a(data).None? && toMp3(data).Some? ==>
              u == Upload(toMp3(data), Renamed(filename, ".mp3"), "audio/mpeg") && attempts == [ToM4a, ToMp3]
    ensures IsRawAac(filename, mime) && haveFfmpeg && toM4a(data).None? && toMp3(data).None? ==>
              u == Upload(None, filename, mime) && attempts == [ToM4a, ToMp3]
    ensures Uploadable(u)
  {
    var audioBytes: Option<seq<byte>> := Some(data);
    var name, kind := filename, mime;
    attempts := [];
    if IsRawAac(name, kind) {
      if !haveFfmpeg {
        audioBytes := None;
      } else {
        attempts := attempts + [ToM4a];
        var m4a := toM4a(data);
        if m4a.Some? {
          audioBytes, name, kind := m4a, Renamed(name, ".m4a"), "audio/mp4";
          RenamedIsNotAac(filename, ".m4a");
        } else {
          attempts := attempts + [ToMp3];
          var mp3 := toMp3(data);
          if mp3.Some? {
            audioBytes, name, kind := mp3, Renamed(name, ".mp3"), "audio/mpeg";
            RenamedIsNotAac(filename, ".mp3");
          } else {
            audioBytes := None;
          }
        }
      }
    }
    u := Upload(audioBytes, name, kind);
  }

  /** A name given a four-character extension other than `.aac` no longer reads as AAC. */
  lemma RenamedIsNotAac(filename: string, ext: string)
    requires |ext| == 4 && Lower(ext) == ext && ext != ".aac"
    ensures !EndsWith(Lower(Renamed(filename, ext)), ".aac")
  {
    var stem := Stem(filename);
    LowerAppend(stem, ext);
    var fn := Lower(stem + ext);
    assert fn[|fn| - 4..] == ext;
  }

  /**
   * The converted name and type agree with the classifier: a stream-copied
   * file reads as `audio/mp4`, a re-encoded one as `audio/mpeg`.
   */
  lemma ConvertedNamesClassify(filename: string)
    ensures GuessMime(Renamed(filename, ".m4a")) == "audio/mp4"
    ensures GuessMime(Renamed(filename, ".mp3")) == "audio/mpeg"
  {
    var stem := Stem(filename);
    assert Renamed(filename, ".m4a") == stem + Table[7].0;
    assert Renamed(filename, ".mp3") == stem + Table[1].0;
    GuessMimeOfSuffixedName(stem, 7);
    GuessMimeOfSuffixedName(stem, 1);
  }

  /**
   * Only the last extension is replaced: a `.aac` name (any case) keeps
   * everything before its final four characters, and a name without `.`
   * keeps the whole name.
   */
  lemma RenamedReplacesExtension(filename: string, ext: string)
    ensures EndsWith(Lower(filename), ".aac") ==> Renamed(filename, ext) == filename[..|filename| - 4] + ext
    ensures (forall j :: 0 <= j < |filename| ==> filename[j] != '.') ==> Renamed(filename, ext) == filename + ext
  {
    if EndsWith(Lower(filename), ".aac") {
      var n := |filename|;
      assert Lower(filename)[n - 4] == '.';
      assert filename[n - 4] == '.';
      forall j | n - 4 < j < n ensures filename[j] != '.' {
        assert Lower(filename)[j] != '.';
      }
      assert |Stem(filename)| == n - 4;
    }
  }

  /** The upload section: read the file, choose its type, then run the `.aac` block. */
  method ReceiveUpload(data: seq<byte>, name: string, declared: Option<string>, haveFfmpeg: bool,
                       toM4a: seq<byte> -> Option<seq<byte>>, toMp3: seq<byte> -> Option<seq<byte>>)
    returns (u: Upload, attempts: seq<Conversion>)
    ensures u.mime != ""
    ensures Uploadable(u)
    ensures !IsRawAac(name, UploadedMime(declared, name)) ==> u == Upload(Some(data), name, UploadedMime(declared, name))
    ensures IsRawAac(name, UploadedMime(declared, name)) && haveFfmpeg && toM4a(data).Some? ==>
              u == Upload(toM4a(data), Renamed(name, ".m4a"), "audio/mp4")
    ensures IsRawAac(name, UploadedMime(declared, name)) && haveFfmpeg && toM4a(data).None? && toMp3(data).Some? ==>
              u == Upload(toMp3(data), Renamed(name, ".mp3"), "audio/mpeg")
    ensures u.bytes.None? <==>
              IsRawAac(name, UploadedMime(declared, name)) && (!haveFfmpeg || (toM4a(data).None? && toMp3(data).None?))
    ensures !IsRawAac(name, UploadedMime(declared, name)) || !haveFfmpeg ==> attempts == []
    ensures IsRawAac(name, UploadedMime(declared, name)) && haveFfmpeg ==>
              attempts == if toM4a(data).Some? then [ToM4a] else [ToM4a, ToMp3]
  {
    var mime := UploadedMime(declared, name);
    u, attempts := NormalizeAac(data, name, mime, haveFfmpeg, toM4a, toMp3);
  }
}
