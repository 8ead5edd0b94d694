/** The shortcut grid's list: how it is read from and written to storage,
    seeded from the browser's top sites or a built-in default, extended from
    the add dialog and shortened from the customize dialog. */
module Shortcuts {
  import opened Wrappers
  import opened Text

  datatype Shortcut = Shortcut(name: string, url: string)

  const Defaults: seq<Shortcut> := [
    Shortcut("Gmail", "https://mail.google.com"),
    Shortcut("YouTube", "https://youtube.com"),
    Shortcut("Calendar", "https://calendar.google.com"),
    Shortcut("Tasks", "https://tasks.google.com")
  ]

  /** What the shortcut key of storage holds: nothing; something that does
      not parse to a JSON array (including the empty string); or an array. */
  datatype Stored = Absent | Malformed | List(items: seq<Shortcut>)

  /** `getShortcuts`: the stored array when it is a non-empty array, else none. */
  function GetShortcuts(v: Stored): (r: Option<seq<Shortcut>>)
    ensures r.Some? <==> v.List? && v.items != []
    ensures r.Some? ==> r.value == v.items
  {
    if v.List? && |v.items| > 0 then Some(v.items) else None
  }

  /** `setShortcuts`: writing a list and reading it back gives the list, unless
      it is empty, which reads back as nothing stored. */
  function SetShortcuts(list: seq<Shortcut>): (v: Stored)
    ensures list != [] ==> GetShortcuts(v) == Some(list)
    ensures list == [] ==> GetShortcuts(v) == None
  {
    List(list)
  }

  /** The list the customize dialog shows: `getShortcuts() || defaultShortcuts`. */
  function EditList(v: Stored): (list: seq<Shortcut>)
    ensures list != []
    ensures GetShortcuts(v).Some? ==> list == v.items
    ensures GetShortcuts(v).None? ==> list == Defaults
  {
    GetShortcuts(v).GetOr(Defaults)
  }

  /** A URL typed without `://` gets `https://` in front; otherwise it is kept. */
  function WithScheme(url: string): (r: string)
    ensures HasSchemeSeparator(r)
    ensures |r| >= |url| && r[|r| - |url|..] == url
    ensures HasSchemeSeparator(url) <==> r == url
    ensures !HasSchemeSeparator(url) ==> r == "https://" + url
  {
    if IndexOf(url, "://") == -1 then
      assert OccursAt("https://" + url, "://", 5);
      "https://" + url
    else url
  }

  /** The entry the add dialog produces: both fields trimmed, none when either
      is empty, and the URL given a scheme when it has none. */
  function NewEntry(nameInput: string, urlInput: string): (r: Option<Shortcut>)
    ensures r.None? <==> Trim(nameInput) == [] || Trim(urlInput) == []
    ensures r.Some? ==> r.value.name == Trim(nameInput) && r.value.name != []
    ensures r.Some? ==> r.value.url == WithScheme(Trim(urlInput)) && HasSchemeSeparator(r.value.url)
  {
    var name := Trim(nameInput);
    var url := Trim(urlInput);
    if name == [] || url == [] then None else Some(Shortcut(name, WithScheme(url)))
  }

  /** The store after the add dialog's save button: unchanged when the entry
      is rejected; otherwise the stored list (or the empty list, when nothing
      valid is stored) with the entry appended. */
  function AfterSave(v: Stored, nameInput: string, urlInput: string): (r: Stored)
    ensures NewEntry(nameInput, urlInput).None? ==> r == v
    ensures NewEntry(nameInput, urlInput).Some? ==>
      var before := GetShortcuts(v).GetOr([]);
      GetShortcuts(r).Some?
      && |r.items| == |before| + 1
      && r.items[..|before|] == before
      && r.items[|before|] == NewEntry(nameInput, urlInput).value
  {
    match NewEntry(nameInput, urlInput)
    case None => v
    case Some(entry) => SetShortcuts(GetShortcuts(v).GetOr([]) + [entry])
  }

  /** Where `splice(idx, 1)` starts: negative positions count from the end. */
  function SpliceStart(len: nat, idx: int): (k: nat)
    ensures k <= len
    ensures 0 <= idx < len ==> k == idx
    ensures idx < 0 && len + idx >= 0 ==> k == len + idx
    ensures idx >= len ==> k == len
    ensures len + idx < 0 ==> k == 0
  {
    if idx < 0 then (if len + idx < 0 then 0 else len + idx)
    else if idx > len then len
    else idx
  }

  /** `arr.splice(idx, 1)`: the entry at the start position goes, the others
      keep their order; nothing changes when the start is past the end. */
  function RemoveAt<T>(s: seq<T>, idx: int): (r: seq<T>)
    ensures SpliceStart(|s|, idx) == |s| ==> r == s
    ensures SpliceStart(|s|, idx) < |s| ==>
      |r| == |s| - 1
      && (forall j :: 0 <= j < SpliceStart(|s|, idx) ==> r[j] == s[j])
      && (forall j :: SpliceStart(|s|, idx) <= j < |r| ==> r[j] == s[j + 1])
      && multiset(r) + multiset{s[SpliceStart(|s|, idx)]} == multiset(s)
  {
    var k := SpliceStart(|s|, idx);
    if k < |s| then
      assert s == s[..k] + [s[k]] + s[k + 1..];
      s[..k] + s[k + 1..]
    else s
  }

  /** The store after a remove button: the entry at `idx` removed from the
      stored list (or from the empty list, when nothing valid is stored),
      and the default list stored instead of an empty one. Afterwards the
      store always holds a valid list. */
  function AfterRemove(v: Stored, idx: int): (r: Stored)
    ensures GetShortcuts(r).Some?
    ensures var rest := RemoveAt(GetShortcuts(v).GetOr([]), idx);
      r.items == if rest == [] then Defaults else rest
  {
    var rest := RemoveAt(GetShortcuts(v).GetOr([]), idx);
    SetShortcuts(if rest != [] then rest else Defaults)
  }

  /** Removing the only entry leaves the default list, not an empty one. */
  lemma RemoveLastGivesDefaults(s: Shortcut, idx: int)
    requires idx == 0 || idx == -1
    ensures AfterRemove(List([s]), idx) == List(Defaults)
  {
    assert RemoveAt([s], idx) == [];
  }

  /** With nothing valid stored the dialog lists the defaults, but a remove
      button there acts on an empty list: the defaults are stored, all four
      of them, whichever entry was clicked. */
  lemma RemoveWithNothingStored(v: Stored, idx: int)
    requires GetShortcuts(v).None? && 0 <= idx < |EditList(v)|
    ensures AfterRemove(v, idx) == List(EditList(v))
  {
  }

  /** An entry of the browser's most-visited list; `host` is the host name
      the browser's URL parser extracts from `url` (empty when it has none). */
  datatype TopSite = TopSite(title: string, url: string, host: string)

  /** `s.title || domainFromUrl(s.url) || 'Link'`. */
  function SiteName(s: TopSite): (name: string)
    ensures name != []
    ensures s.title != [] ==> name == s.title
    ensures s.title == [] && s.host != [] ==> name == s.host
    ensures s.title == [] && s.host == [] ==> name == "Link"
  {
    if s.title != [] then s.title else if s.host != [] then s.host else "Link"
  }

  const MaxTopSites := 8

  /** `sites.slice(0, 8).map(...)`: at most eight shortcuts, in order, each
      with its site's URL and a non-empty name. */
  function FromTopSites(sites: seq<TopSite>): (list: seq<Shortcut>)
    ensures |list| == if |sites| < MaxTopSites then |sites| else MaxTopSites
    ensures forall i :: 0 <= i < |list| ==> list[i] == Shortcut(SiteName(sites[i]), sites[i].url)
    ensures forall i :: 0 <= i < |list| ==> list[i].name != []
  {
    var n := if |sites| < MaxTopSites then |sites| else MaxTopSites;
    seq(n, i requires 0 <= i < n => Shortcut(SiteName(sites[i]), sites[i].url))
  }

  /** `loadShortcuts`: the list to show and the store afterwards. A valid
      stored list is used as it is; otherwise the top sites (when the browser
      offers some) or the defaults are shown and stored. `topSites` is none
      when the browser has no top-sites capability. */
  function Resolve(v: Stored, topSites: Option<seq<TopSite>>): (r: (seq<Shortcut>, Stored))
    ensures r.0 != []
    ensures GetShortcuts(v).Some? ==> r.0 == v.items && r.1 == v
    ensures GetShortcuts(v).None? ==> GetShortcuts(r.1) == Some(r.0)
    ensures GetShortcuts(v).None? && topSites.Some? && topSites.value != [] ==>
      r.0 == FromTopSites(topSites.value)
    ensures GetShortcuts(v).None? && (topSites.None? || topSites.value == []) ==> r.0 == Defaults
  {
    match GetShortcuts(v)
    case Some(saved) => (saved, v)
    case None =>
      if topSites.Some? && |topSites.value| > 0 then
        var list := FromTopSites(topSites.value);
        (list, SetShortcuts(list))
      else (Defaults, SetShortcuts(Defaults))
  }

  /** Loading again after a load shows the same list and writes nothing,
      whatever the browser's top sites are by then. */
  lemma ResolveStable(v: Stored, first: Option<seq<TopSite>>, later: Option<seq<TopSite>>)
    ensures var r := Resolve(v, first);
      Resolve(r.1, later) == r
  {
    var r := Resolve(v, first);
    assert GetShortcuts(r.1) == Some(r.0);
  }

  /** `firstLetter`: the first non-blank character, upper-cased, or '?' for
      blank text. */
  function FirstLetter(str: string): (r: string)
    ensures Trim(str) == [] ==> r == "?"
    ensures Trim(str) != [] ==>
      r == [UpperAscii(str[TrimOffset(str)])] && !IsSpace(str[TrimOffset(str)])
      && forall k :: 0 <= k < TrimOffset(str) ==> IsSpace(str[k])
  {
    var t := Trim(str);
    if t == [] then "?" else [UpperAscii(t[0])]
  }

  /** The shortcut key of storage, changed in place by the dialogs' buttons. */
  class ShortcutStore {
    var stored: Stored

    constructor (initial: Stored)
      ensures stored == initial
    {
      stored := initial;
    }

    /** `loadShortcuts`, with the top-sites answer passed in. */
    method Load(topSites: Option<seq<TopSite>>) returns (list: seq<Shortcut>)
      modifies this
      ensures (list, stored) == Resolve(old(stored), topSites)
    {
      var saved := GetShortcuts(stored);
      if saved.Some? {
        list := saved.value;
        return;
      }
      if topSites.Some? && |topSites.value| > 0 {
        list := FromTopSites(topSites.value);
      } else {
        list := Defaults;
      }
      stored := SetShortcuts(list);
    }

    /** The add dialog's save button; `saved` tells whether the dialog closes. */
    method Save(nameInput: string, urlInput: string) returns (saved: bool)
      modifies this
      ensures saved <==> NewEntry(nameInput, urlInput).Some?
      ensures stored == AfterSave(old(stored), nameInput, urlInput)
    {
      var name := Trim(nameInput);
      var url := Trim(urlInput);
      if name == [] || url == [] {
        return false;
      }
      if IndexOf(url, "://") == -1 {
        url := "https://" + url;
      }
      var list := GetShortcuts(stored).GetOr([]);
      list := list + [Shortcut(name, url)];
      stored := SetShortcuts(list);
      saved := true;
    }

    /** A remove button of the customize dialog, for the entry at `idx`. */
    method Remove(idx: int)
      modifies this
      ensures stored == AfterRemove(old(stored), idx)
      ensures GetShortcuts(stored).Some?
    {
      var list := GetShortcuts(stored).GetOr([]);
      list := RemoveAt(list, idx);
      stored := SetShortcuts(if |list| > 0 then list else Defaults);
    }
  }
}
