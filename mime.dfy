/**
 * The filename classifier `guess_mime` and the choice of a media type for an
 * uploaded file (declared type first, classifier second).
 */
module Mime {
  import opened Wrappers
  import opened Text

  const OctetStream: string := "application/octet-stream"

  /** The suffix table `guess_mime` tests, in its order. */
  const Table: seq<(string, string)> := [
    (".wav", "audio/wav"),
    (".mp3", "audio/mpeg"),
    (".ogg", "audio/ogg"),
    (".opus", "audio/ogg"),
    (".flac", "audio/flac"),
    (".amr", "audio/amr"),
    (".mp4", "audio/mp4"),
    (".m4a", "audio/mp4"),
    (".aac", "audio/aac")
  ]

  /** `guess_mime(filename)`: suffix tests on the lower-cased name. */
  function GuessMime(filename: string): (mime: string)
    ensures mime != ""
  {
    var fn := Lower(filename);
    if EndsWith(fn, ".wav") then "audio/wav"
    else if EndsWith(fn, ".mp3") then "audio/mpeg"
    else if EndsWith(fn, ".ogg") || EndsWith(fn, ".opus") then "audio/ogg"
    else if EndsWith(fn, ".flac") then "audio/flac"
    else if EndsWith(fn, ".amr") then "audio/amr"
    else if EndsWith(fn, ".mp4") || EndsWith(fn, ".m4a") then "audio/mp4"
    else if EndsWith(fn, ".aac") then "audio/aac"
    else OctetStream
  }

  /** No name ends with two different suffixes of the table. */
  lemma SuffixesExclusive(s: string, i: nat, j: nat)
    requires i < |Table| && j < |Table|
    requires EndsWith(s, Table[i].0) && EndsWith(s, Table[j].0)
    ensures i == j
  {
    var a, b := Table[i].0, Table[j].0;
    assert s[|s| - 1] == a[|a| - 1] == b[|b| - 1];
    assert s[|s| - 2] == a[|a| - 2] == b[|b| - 2];
    assert s[|s| - 3] == a[|a| - 3] == b[|b| - 3];
  }

  /** A name whose lower-cased form ends with a listed suffix gets that suffix's type. */
  lemma GuessMimeListed(filename: string, i: nat)
    requires i < |Table| && EndsWith(Lower(filename), Table[i].0)
    ensures GuessMime(filename) == Table[i].1
  {
    var fn := Lower(filename);
    forall j | 0 <= j < |Table| && j != i ensures !EndsWith(fn, Table[j].0) {
      if EndsWith(fn, Table[j].0) {
        SuffixesExclusive(fn, i, j);
      }
    }
    assert i != 0 ==> !EndsWith(fn, Table[0].0);
    assert i != 1 ==> !EndsWith(fn, Table[1].0);
    assert i != 2 ==> !EndsWith(fn, Table[2].0);
    assert i != 3 ==> !EndsWith(fn, Table[3].0);
    assert i != 4 ==> !EndsWith(fn, Table[4].0);
    assert i != 5 ==> !EndsWith(fn, Table[5].0);
    assert i != 6 ==> !EndsWith(fn, Table[6].0);
    assert i != 7 ==> !EndsWith(fn, Table[7].0);
  }

  /** Every name that ends with no listed suffix, the empty one included, is generic binary. */
  lemma GuessMimeUnlisted(filename: string)
    requires forall i :: 0 <= i < |Table| ==> !EndsWith(Lower(filename), Table[i].0)
    ensures GuessMime(filename) == OctetStream
  {
    var fn := Lower(filename);
    assert !EndsWith(fn, Table[0].0) && !EndsWith(fn, Table[1].0) && !EndsWith(fn, Table[2].0);
    assert !EndsWith(fn, Table[3].0) && !EndsWith(fn, Table[4].0) && !EndsWith(fn, Table[5].0);
    assert !EndsWith(fn, Table[6].0) && !EndsWith(fn, Table[7].0) && !EndsWith(fn, Table[8].0);
  }

  /** The result depends only on the lower-cased name. */
  lemma GuessMimeIgnoresCase(filename: string)
    ensures GuessMime(Lower(filename)) == GuessMime(filename)
  {
    assert Lower(Lower(filename)) == Lower(filename);
  }

  /** A name built as stem + a listed suffix, whatever the stem, gets that suffix's type. */
  lemma GuessMimeOfSuffixedName(stem: string, i: nat)
    requires i < |Table|
    ensures GuessMime(stem + Table[i].0) == Table[i].1
  {
    var suffix := Table[i].0;
    LowerAppend(stem, suffix);
    assert Lower(suffix) == suffix;
    var fn := Lower(stem + suffix);
    assert fn[|fn| - |suffix|..] == suffix;
    GuessMimeListed(stem + suffix, i);
  }

  /**
   * The media type taken for an uploaded file: `up.type or guess_mime(up.name)`.
   * `None` and the empty string both fall back to the classifier.
   */
  function UploadedMime(declared: Option<string>, name: string): (mime: string)
    ensures mime != ""
    ensures declared.Some? && declared.value != "" ==> mime == declared.value
    ensures declared.None? || declared.value == "" ==> mime == GuessMime(name)
  {
    if declared.Some? && declared.value != "" then declared.value else GuessMime(name)
  }
}
