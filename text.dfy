/**
 * The few Python string built-ins the client relies on: `str.lower`,
 * `str.endswith`, `str.rsplit(".", 1)[0]` and `str.strip`.
 */
module Text {
  import opened Wrappers

  /** `str.lower` on one character; only ASCII letters are folded. */
  function LowerChar(c: char): char
  {
    if 'A' <= c <= 'Z' then (c as int - 'A' as int + 'a' as int) as char else c
  }

  /** `str.lower`, character by character. */
  function Lower(s: string): string
  {
    seq(|s|, i requires 0 <= i < |s| => LowerChar(s[i]))
  }

  /** `s.endswith(suffix)`. */
  predicate EndsWith(s: string, suffix: string)
  {
    |suffix| <= |s| && s[|s| - |suffix|..] == suffix
  }

  /** Lower-casing distributes over concatenation. */
  lemma LowerAppend(a: string, b: string)
    ensures Lower(a + b) == Lower(a) + Lower(b)
  {
    assert forall i :: 0 <= i < |a + b| ==> Lower(a + b)[i] == (Lower(a) + Lower(b))[i];
  }

  /** Position of the last `.` in `s`, if any. */
  function LastDot(s: string): (k: Option<nat>)
    ensures k.Some? ==> k.value < |s| && s[k.value] == '.'
    ensures k.Some? ==> forall j :: k.value < j < |s| ==> s[j] != '.'
    ensures k.None? ==> forall j :: 0 <= j < |s| ==> s[j] != '.'
  {
    if s == [] then None
    else if s[|s| - 1] == '.' then Some(|s| - 1)
    else LastDot(s[..|s| - 1])
  }

  /**
   * `s.rsplit(".", 1)[0]`: everything before the last `.`, or the whole
   * string when it has no `.`.
   */
  function Stem(s: string): (stem: string)
    ensures |stem| <= |s| && stem == s[..|stem|]
    ensures (forall j :: 0 <= j < |s| ==> s[j] != '.') ==> stem == s
    ensures (exists j :: 0 <= j < |s| && s[j] == '.') ==>
              |stem| < |s| && s[|stem|] == '.' && forall j :: |stem| < j < |s| ==> s[j] != '.'
  {
    match LastDot(s)
    case None => s
    case Some(k) => s[..k]
  }

  /** Python's `str.isspace` for one character (`\s` in the Unicode database). */
  predicate IsSpace(c: char)
  {
    || c == ' ' || c == '\t' || c == '\n' || c == '\r' || c == '\U{000B}' || c == '\U{000C}'
    || ('\U{001C}' <= c <= '\U{001F}') || c == '\U{0085}' || c == '\U{00A0}' || c == '\U{1680}'
    || ('\U{2000}' <= c <= '\U{200A}') || c == '\U{2028}' || c == '\U{2029}' || c == '\U{202F}'
    || c == '\U{205F}' || c == '\U{3000}'
  }

  /** `str.lstrip()`. */
  function StripLeft(s: string): (r: string)
    ensures r != [] ==> !IsSpace(r[0])
    ensures |r| <= |s| && r == s[|s| - |r|..]
  {
    if s != [] && IsSpace(s[0]) then StripLeft(s[1..]) else s
  }

  /** `str.rstrip()`. */
  function StripRight(s: string): string
  {
    if s != [] && IsSpace(s[|s| - 1]) then StripRight(s[..|s| - 1]) else s
  }

  /** `str.strip()`. */
  function Strip(s: string): string
  {
    StripRight(StripLeft(s))
  }

  /** Every character of `s` is white space. */
  predicate Blank(s: string)
  {
    forall i :: 0 <= i < |s| ==> IsSpace(s[i])
  }

  lemma {:induction false} StripLeftEmpty(s: string)
    ensures StripLeft(s) == [] <==> Blank(s)
    decreases |s|
  {
    if s != [] && IsSpace(s[0]) {
      StripLeftEmpty(s[1..]);
      assert Blank(s) <==> Blank(s[1..]) by {
        if Blank(s[1..]) {
          forall i | 0 <= i < |s| ensures IsSpace(s[i]) {
            if i > 0 { assert s[i] == s[1..][i - 1]; }
          }
        }
      }
    }
  }

  lemma {:induction false} StripRightKeepsHead(s: string)
    requires s != [] && !IsSpace(s[0])
    ensures StripRight(s) != []
    decreases |s|
  {
    if IsSpace(s[|s| - 1]) {
      assert |s| > 1;
      StripRightKeepsHead(s[..|s| - 1]);
    }
  }

  /**
   * `not s.strip()` holds exactly when `s` is empty or white space only.
   */
  lemma StripEmptyIffBlank(s: string)
    ensures Strip(s) == [] <==> Blank(s)
  {
    StripLeftEmpty(s);
    var t := StripLeft(s);
    if t != [] {
      StripRightKeepsHead(t);
    }
  }
}
