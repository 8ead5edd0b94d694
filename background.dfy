/** The custom background: the stored image reference and the CSS value the
    page builds from it. */
module Background {
  import opened Wrappers
  import opened Text

  /** `getBgUrl`: the stored reference, or the empty string when there is none. */
  function GetBgUrl(stored: Option<string>): (url: string)
    ensures stored.None? ==> url == []
    ensures stored.Some? ==> url == stored.value
  {
    stored.GetOr([])
  }

  /** `setBgUrl`: a non-empty reference is stored, the empty one removes the
      key; either way reading it back gives what was set. */
  function SetBgUrl(url: string): (stored: Option<string>)
    ensures GetBgUrl(stored) == url
    ensures stored.None? <==> url == []
  {
    if url != [] then Some(url) else None
  }

  function QuoteCount(s: string): nat {
    if s == [] then 0 else (if s[0] == '"' then 1 else 0) + QuoteCount(s[1..])
  }

  predicate NoQuotes(s: string) {
    forall k :: 0 <= k < |s| ==> s[k] != '"'
  }

  /** `url.replace(/"/g, '%22')`: every double quote becomes `%22`. */
  function EscapeQuotes(s: string): (r: string)
    ensures NoQuotes(r)
    ensures |r| == |s| + 2 * QuoteCount(s)
    ensures NoQuotes(s) ==> r == s
    ensures |s| == 1 ==> r == if s[0] == '"' then "%22" else s
  {
    if s == [] then []
    else (if s[0] == '"' then "%22" else [s[0]]) + EscapeQuotes(s[1..])
  }

  /** Escaping works character by character: the escape of a concatenation is
      the concatenation of the escapes. */
  lemma {:induction false} EscapeAppend(a: string, b: string)
    ensures EscapeQuotes(a + b) == EscapeQuotes(a) + EscapeQuotes(b)
  {
    if a != [] {
      EscapeAppend(a[1..], b);
      assert (a + b)[1..] == a[1..] + b;
    } else {
      assert a + b == b;
    }
  }

  /** Turns `%22` back into a double quote. */
  function UnescapeQuotes(s: string): string
  {
    if s == [] then []
    else if |s| >= 3 && s[..3] == "%22" then "\"" + UnescapeQuotes(s[3..])
    else [s[0]] + UnescapeQuotes(s[1..])
  }

  /** For references without a '%', escaping loses nothing. */
  lemma {:induction false} EscapeRoundTrip(s: string)
    requires forall k :: 0 <= k < |s| ==> s[k] != '%'
    ensures UnescapeQuotes(EscapeQuotes(s)) == s
  {
    if s != [] {
      EscapeRoundTrip(s[1..]);
      var rest := EscapeQuotes(s[1..]);
      if s[0] == '"' {
        assert EscapeQuotes(s) == "%22" + rest;
        assert (EscapeQuotes(s))[3..] == rest;
      } else {
        assert EscapeQuotes(s) == [s[0]] + rest;
        assert (EscapeQuotes(s))[1..] == rest;
      }
    }
  }

  /** The `background-image` value of `applyBackground`: empty when the
      trimmed reference is empty; otherwise `url("...")` around the escaped
      reference, so the only double quotes are the two delimiters. */
  function BackgroundImage(stored: Option<string>): (css: string)
    ensures Trim(GetBgUrl(stored)) == [] <==> css == []
    ensures css != [] ==>
      |css| >= 7 && css[..5] == "url(\"" && css[|css| - 2..] == "\")"
      && NoQuotes(css[5..|css| - 2])
      && css[5..|css| - 2] == EscapeQuotes(Trim(GetBgUrl(stored)))
  {
    var url := Trim(GetBgUrl(stored));
    if url != [] then
      var css := "url(\"" + EscapeQuotes(url) + "\")";
      assert css[5..|css| - 2] == EscapeQuotes(url);
      css
    else []
  }
}
