/** The string primitives the page script relies on: `String.prototype.trim`,
    `indexOf`, ASCII case mapping and the character classes of its regular
    expressions. Strings are sequences of characters. */
module Text {

  /** The characters `trim` removes: ECMAScript WhiteSpace and LineTerminator. */
  predicate IsSpace(c: char) {
    c == '\t' || c == '\n' || c == '\U{000B}' || c == '\U{000C}' || c == '\r' || c == ' '
    || c == '\U{00A0}' || c == '\U{1680}' || ('\U{2000}' <= c <= '\U{200A}')
    || c == '\U{2028}' || c == '\U{2029}' || c == '\U{202F}' || c == '\U{205F}'
    || c == '\U{3000}' || c == '\U{FEFF}'
  }

  /** The characters a regular-expression `.` does not match. */
  predicate IsLineTerminator(c: char) {
    c == '\n' || c == '\r' || c == '\U{2028}' || c == '\U{2029}'
  }

  predicate IsAsciiLetter(c: char) {
    ('a' <= c <= 'z') || ('A' <= c <= 'Z')
  }

  predicate IsAsciiDigit(c: char) {
    '0' <= c <= '9'
  }

  /** The regular-expression class `\w`. */
  predicate IsWordChar(c: char) {
    IsAsciiLetter(c) || IsAsciiDigit(c) || c == '_'
  }

  function UpperAscii(c: char): (r: char)
    ensures 'a' <= c <= 'z' ==> 'A' <= r <= 'Z' && r as int - 'A' as int == c as int - 'a' as int
    ensures !('a' <= c <= 'z') ==> r == c
    ensures IsAsciiLetter(c) <==> IsAsciiLetter(r)
  {
    if 'a' <= c <= 'z' then (c as int - 32) as char else c
  }

  function LowerAscii(c: char): (r: char)
    ensures 'A' <= c <= 'Z' ==> 'a' <= r <= 'z' && r as int - 'a' as int == c as int - 'A' as int
    ensures !('A' <= c <= 'Z') ==> r == c
    ensures UpperAscii(r) == UpperAscii(c)
  {
    if 'A' <= c <= 'Z' then (c as int + 32) as char else c
  }

  /** `s` with its leading white space removed. */
  function TrimStart(s: string): (r: string)
    ensures |r| <= |s| && r == s[|s| - |r|..]
    ensures forall i :: 0 <= i < |s| - |r| ==> IsSpace(s[i])
    ensures r == [] || !IsSpace(r[0])
  {
    if s != [] && IsSpace(s[0]) then TrimStart(s[1..]) else s
  }

  /** `s` with its trailing white space removed. */
  function TrimEnd(s: string): (r: string)
    ensures |r| <= |s| && r == s[..|r|]
    ensures forall i :: |r| <= i < |s| ==> IsSpace(s[i])
    ensures r == [] || !IsSpace(r[|r| - 1])
  {
    if s != [] && IsSpace(s[|s| - 1]) then TrimEnd(s[..|s| - 1]) else s
  }

  /** Where the trimmed text starts inside `s`. */
  function TrimOffset(s: string): (k: nat)
    ensures k <= |s|
  {
    |s| - |TrimStart(s)|
  }

  /** `String.prototype.trim`: the slice of `s` between its leading and its
      trailing white space. */
  function Trim(s: string): (r: string)
    ensures TrimOffset(s) + |r| <= |s| && r == s[TrimOffset(s)..TrimOffset(s) + |r|]
    ensures forall i :: 0 <= i < TrimOffset(s) ==> IsSpace(s[i])
    ensures forall i :: TrimOffset(s) + |r| <= i < |s| ==> IsSpace(s[i])
    ensures r == [] || (!IsSpace(r[0]) && !IsSpace(r[|r| - 1]))
    ensures r == [] <==> forall i :: 0 <= i < |s| ==> IsSpace(s[i])
  {
    var t := TrimStart(s);
    var r := TrimEnd(t);
    assert r == [] ==> t == [];
    r
  }

  lemma TrimIdempotent(s: string)
    ensures Trim(Trim(s)) == Trim(s)
  {
    var r := Trim(s);
    assert TrimStart(r) == r;
    assert TrimEnd(r) == r;
  }

  /** Text with no white space at either end is left as it is by `Trim`. */
  lemma TrimKeeps(s: string)
    requires s != [] && !IsSpace(s[0]) && !IsSpace(s[|s| - 1])
    ensures Trim(s) == s
  {
    assert TrimStart(s) == s;
    assert TrimEnd(s) == s;
  }

  /** `pat` occurs in `s` at position `k`. */
  predicate OccursAt(s: string, pat: string, k: int) {
    0 <= k && k + |pat| <= |s| && s[k..k + |pat|] == pat
  }

  lemma OccursAtStartsWith(s: string, pat: string, k: int)
    ensures OccursAt(s, pat, k) && |pat| > 0 ==> s[k] == pat[0]
  {
    if OccursAt(s, pat, k) && |pat| > 0 {
      assert s[k..k + |pat|][0] == s[k];
    }
  }

  /** `s.indexOf(pat)`: the first position at which `pat` occurs in `s`, or -1. */
  function IndexOf(s: string, pat: string): (r: int)
    ensures r == -1 || OccursAt(s, pat, r)
    ensures r == -1 ==> forall k :: !OccursAt(s, pat, k)
    ensures r != -1 ==> forall k :: k < r ==> !OccursAt(s, pat, k)
    decreases |s|
  {
    if |s| < |pat| then -1
    else if s[..|pat|] == pat then 0
    else
      var i := IndexOf(s[1..], pat);
      assert forall k :: OccursAt(s, pat, k) <==> (k != 0 && OccursAt(s[1..], pat, k - 1)) by {
        forall k ensures OccursAt(s, pat, k) <==> (k != 0 && OccursAt(s[1..], pat, k - 1)) {
          if 1 <= k && k + |pat| <= |s| {
            var tail := s[1..];
            var a, b := tail[k - 1..k - 1 + |pat|], s[k..k + |pat|];
            assert forall j :: 0 <= j < |pat| ==> a[j] == b[j];
            assert a == b;
          }
        }
      }
      if i == -1 then -1 else i + 1
  }

  /** `s.indexOf('://') !== -1`: the text already names a scheme. */
  predicate HasSchemeSeparator(s: string) {
    IndexOf(s, "://") != -1
  }

  /** Text without a ':' names no scheme. */
  lemma NoColonNoScheme(s: string)
    requires forall k :: 0 <= k < |s| ==> s[k] != ':'
    ensures !HasSchemeSeparator(s)
  {
    var r := IndexOf(s, "://");
    OccursAtStartsWith(s, "://", r);
  }

  /** The prefix test `/^https?:\/\//i`. */
  predicate StartsWithHttpScheme(s: string): (b: bool)
    ensures b <==>
      (|s| >= 7 && forall k :: 0 <= k < 7 ==> LowerAscii(s[k]) == "http://"[k])
      || (|s| >= 8 && forall k :: 0 <= k < 8 ==> LowerAscii(s[k]) == "https://"[k])
  {
    (|s| >= 7 && LowerAll(s[..7]) == "http://") || (|s| >= 8 && LowerAll(s[..8]) == "https://")
  }

  function LowerAll(s: string): (r: string)
    ensures |r| == |s|
    ensures forall i :: 0 <= i < |s| ==> r[i] == LowerAscii(s[i])
  {
    if s == [] then [] else [LowerAscii(s[0])] + LowerAll(s[1..])
  }
}
