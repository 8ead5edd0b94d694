/** The search bar's submit handler: empty input is swallowed, input that
    looks like a web address is opened directly, anything else goes to the
    search engine as an ordinary form submission. */
module Search {
  import opened Text

  /** The class `[\w.-]`. */
  predicate IsHostChar(c: char) {
    IsWordChar(c) || c == '.' || c == '-'
  }

  /** One way for `q` to match `^[\w.-]+\.[a-z]{2,}(\/.*)?$` (case-insensitive):
      the host characters end at the dot `i`, the letters run from `i + 1` up
      to `j`, and from `j` on there is either nothing or a slash followed by
      characters other than line terminators. */
  ghost predicate AddressSplit(q: string, i: int, j: int) {
    0 < i && i + 3 <= j <= |q|
    && (forall k :: 0 <= k < i ==> IsHostChar(q[k]))
    && q[i] == '.'
    && (forall k :: i < k < j ==> IsAsciiLetter(q[k]))
    && (j == |q| || (q[j] == '/' && forall k :: j < k < |q| ==> !IsLineTerminator(q[k])))
  }

  /** The regular expression's language, stated directly. */
  ghost predicate MatchesAddressPattern(q: string) {
    exists i, j :: AddressSplit(q, i, j)
  }

  /** Where the path starts: the first '/', or the end of `q`. */
  function PathStart(q: string): (j: nat)
    ensures j <= |q|
    ensures forall k :: 0 <= k < j ==> q[k] != '/'
    ensures j < |q| ==> q[j] == '/'
  {
    if q == [] then 0
    else if q[0] == '/' then 0
    else 1 + PathStart(q[1..])
  }

  /** The number of letters at the end of `s`. */
  function TrailingLetters(s: string): (n: nat)
    ensures n <= |s|
    ensures forall k :: |s| - n <= k < |s| ==> IsAsciiLetter(s[k])
    ensures n < |s| ==> !IsAsciiLetter(s[|s| - n - 1])
  {
    if s != [] && IsAsciiLetter(s[|s| - 1]) then 1 + TrailingLetters(s[..|s| - 1]) else 0
  }

  predicate AllHostChars(s: string) {
    forall k :: 0 <= k < |s| ==> IsHostChar(s[k])
  }

  predicate NoLineTerminators(s: string) {
    forall k :: 0 <= k < |s| ==> !IsLineTerminator(s[k])
  }

  /** The hand-written matcher: the host is everything before the first '/';
      it must consist of `[\w.-]`, end in two or more letters, and have a dot
      before those letters with at least one character in front of it. It
      accepts exactly the strings the regular expression matches. */
  predicate LooksLikeAddress(q: string): (b: bool)
    ensures b <==> MatchesAddressPattern(q)
  {
    var j := PathStart(q);
    var host := q[..j];
    var t := TrailingLetters(host);
    var ok := AllHostChars(host) && t >= 2 && j - t - 1 >= 1 && host[j - t - 1] == '.'
      && NoLineTerminators(q[j..]);
    assert ok ==> AddressSplit(q, j - t - 1, j) by {
      if ok {
        var i := j - t - 1;
        forall k | i < k < j ensures IsAsciiLetter(q[k]) {
          assert q[k] == host[k];
        }
        forall k | 0 <= k < i ensures IsHostChar(q[k]) {
          assert q[k] == host[k];
        }
        forall k | j < k < |q| ensures !IsLineTerminator(q[k]) {
          assert q[k] == q[j..][k - j];
        }
      }
    }
    assert MatchesAddressPattern(q) ==> ok by {
      if MatchesAddressPattern(q) {
        var i, j' :| AddressSplit(q, i, j');
        // No '/' comes before j', so j' is where the path starts.
        forall k | 0 <= k < j' ensures q[k] != '/' {
          if k < i { assert IsHostChar(q[k]); }
        }
        assert j' == j;
        // The letters after the dot are exactly the trailing letters of the host.
        assert !IsAsciiLetter(host[i]);
        assert forall k :: i < k < j ==> IsAsciiLetter(host[k]);
        assert t == j - i - 1;
        forall k | 0 <= k < |host| ensures IsHostChar(host[k]) {
          assert host[k] == q[k];
          if k > i { assert IsAsciiLetter(q[k]); }
        }
        forall k | 0 <= k < |q[j..]| ensures !IsLineTerminator(q[j..][k]) {
          assert q[j..][k] == q[j + k];
          if k == 0 { assert q[j] == '/'; }
        }
      }
    }
    ok
  }

  /** What the submit handler does with the form. */
  datatype Outcome =
    | Cancelled                  // submission prevented, nothing opened
    | OpenedDirectly(target: string)  // submission prevented, target opened in a new tab
    | SubmittedAsSearch          // the form goes to the search engine unchanged

  /** The submit handler: trim; cancel on empty; open addresses and
      `http(s)://` input directly, with `https://` in front when no scheme is
      given; let everything else through. */
  function Dispatch(input: string): (r: Outcome)
    ensures r == Cancelled <==> Trim(input) == []
    ensures r.OpenedDirectly? <==>
      Trim(input) != [] && (MatchesAddressPattern(Trim(input)) || StartsWithHttpScheme(Trim(input)))
    ensures r.OpenedDirectly? ==> HasSchemeSeparator(r.target)
    ensures r.OpenedDirectly? && HasSchemeSeparator(Trim(input)) ==> r.target == Trim(input)
    ensures r.OpenedDirectly? && !HasSchemeSeparator(Trim(input)) ==> r.target == "https://" + Trim(input)
  {
    var q := Trim(input);
    if q == [] then Cancelled
    else if LooksLikeAddress(q) || StartsWithHttpScheme(q) then
      var target := if IndexOf(q, "://") == -1 then "https://" + q else q;
      assert OccursAt("https://" + q, "://", 5);
      OpenedDirectly(target)
    else SubmittedAsSearch
  }

  /** A bare domain is opened with `https://` in front. */
  lemma BareDomainOpened(q: string)
    requires q == "example.com"
    ensures Dispatch(q) == OpenedDirectly("https://" + q)
  {
    TrimKeeps(q);
    assert AddressSplit(q, 7, 11);
    NoColonNoScheme(q);
  }

  /** Words with a space in them go to the search engine. */
  lemma WordsSearched(q: string)
    requires q == "hello world"
    ensures Dispatch(q) == SubmittedAsSearch
  {
    TrimKeeps(q);
    assert LowerAll(q[..7])[1] == 'e';
    assert LowerAll(q[..8])[1] == 'e';
    assert !MatchesAddressPattern(q) by {
      if MatchesAddressPattern(q) {
        var i, j :| AddressSplit(q, i, j);
        assert false;
      }
    }
  }

  /** A full URL is opened as it is. */
  lemma FullUrlOpened(q: string)
    requires q == "https://foo.org/x"
    ensures Dispatch(q) == OpenedDirectly(q)
  {
    TrimKeeps(q);
    var scheme := q[..8];
    assert forall k :: 0 <= k < 8 ==> LowerAll(scheme)[k] == "https://"[k];
    assert StartsWithHttpScheme(q);
    assert OccursAt(q, "://", 5);
  }
}
