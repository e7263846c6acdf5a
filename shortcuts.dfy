/** The quick-link shortcuts: the add-shortcut form's checks, and the list's add and remove. */
module Shortcuts {
  import opened Wrappers
  import opened Text
  import opened Seqs

  /** The built-in shortcuts carry string ids, new ones the number `Date.now()`; the two never compare equal. */
  datatype ShortcutId = Named(name: string) | Stamp(ms: int)

  datatype Shortcut = Shortcut(id: ShortcutId, title: string, url: string, icon: string)

  const LinkIcon := "\U{1F517}"

  /** `getDefaultShortcuts()`. */
  const DefaultShortcuts: seq<Shortcut> := [
    Shortcut(Named("gpt"), "ChatGPT", "https://chat.openai.com", "\U{1F916}"),
    Shortcut(Named("yt"), "YouTube", "https://www.youtube.com", "▶️"),
    Shortcut(Named("gmail"), "Gmail", "https://mail.google.com", "\U{1F4E7}"),
    Shortcut(Named("moodle"), "Moodle", "https://moodle.org", "\U{1F393}"),
    Shortcut(Named("github"), "GitHub", "https://github.com", "\U{1F419}"),
    Shortcut(Named("docs"), "Google Docs", "https://docs.google.com", "\U{1F4C4}"),
    Shortcut(Named("drive"), "Google Drive", "https://drive.google.com", "☁️"),
    Shortcut(Named("figma"), "Figma", "https://figma.com", "\U{1F3A8}")
  ]

  /** The form's URL: trimmed, with `https://` put in front unless it already starts with "http". */
  function NormaliseUrl(url: string): (r: string)
    ensures StartsWith(r, "http")
    ensures StartsWith(Trim(url), "http") ==> r == Trim(url)
    ensures !StartsWith(Trim(url), "http") ==> r == "https://" + Trim(url)
  {
    var t := Trim(url);
    if StartsWith(t, "http") then t else "https://" + t
  }

  /** Normalising an already normalised URL leaves it as it is. */
  lemma NormaliseUrlIdempotent(url: string)
    ensures NormaliseUrl(NormaliseUrl(url)) == NormaliseUrl(url)
  {
    var t := Trim(url);
    var r := NormaliseUrl(url);
    if StartsWith(t, "http") {
      TrimIdempotent(url);
    } else {
      assert r[0] == 'h';
      if |t| == 0 {
        assert r == "https://";
      } else {
        assert r[|r| - 1] == t[|t| - 1];
      }
      TrimKeeps(r);
    }
  }

  /**
   * `handleSubmit`: nothing when the title or the URL is blank; otherwise a
   * shortcut with the trimmed title, the normalised URL, and the link icon
   * when no icon was given.
   */
  function NewShortcut(title: string, url: string, icon: string, now: int): (r: Option<Shortcut>)
    ensures r.None? <==> AllSpace(title) || AllSpace(url)
    ensures r.Some? ==> r.value.id == Stamp(now) && r.value.title == Trim(title) && r.value.title != ""
    ensures r.Some? ==> r.value.url == NormaliseUrl(url)
    ensures r.Some? ==> r.value.icon == (if icon == "" then LinkIcon else icon)
  {
    TrimEmpty(title);
    TrimEmpty(url);
    if Trim(title) == "" || Trim(url) == "" then None
    else Some(Shortcut(Stamp(now), Trim(title), NormaliseUrl(url), if icon == "" then LinkIcon else icon))
  }

  /** `add(newItem)`: the new shortcut goes first. */
  function Add(list: seq<Shortcut>, item: Shortcut): (r: seq<Shortcut>)
    ensures |r| == |list| + 1 && r[0] == item && r[1..] == list
  {
    [item] + list
  }

  /** `remove(id)`: the shortcuts without the id, in their order. */
  function Remove(list: seq<Shortcut>, id: ShortcutId): (r: seq<Shortcut>)
    ensures forall s :: s in r <==> s in list && s.id != id
    ensures |r| <= |list|
  {
    Filter(list, (s: Shortcut) => s.id != id)
  }

  /** Removing the id of a shortcut just added removes that id from the old list: older shortcuts with the id go too, and when there are none the old list comes back. */
  lemma RemoveAfterAdd(list: seq<Shortcut>, item: Shortcut)
    ensures Remove(Add(list, item), item.id) == Remove(list, item.id)
    ensures (forall i :: 0 <= i < |list| ==> list[i].id != item.id) ==> Remove(Add(list, item), item.id) == list
  {
    FilterAppend([item], list, (s: Shortcut) => s.id != item.id);
    if forall i :: 0 <= i < |list| ==> list[i].id != item.id {
      FilterAll(list, (s: Shortcut) => s.id != item.id);
    }
  }

  /** Removing by a numeric id keeps every shortcut whose id is a string. */
  lemma RemoveStampKeepsNamed(list: seq<Shortcut>, ms: int)
    requires forall i :: 0 <= i < |list| ==> list[i].id.Named?
    ensures Remove(list, Stamp(ms)) == list
  {
    FilterAll(list, (s: Shortcut) => s.id != Stamp(ms));
  }

  /** Removing by a number never touches the built-in shortcuts, whose ids are strings. */
  lemma RemoveStampKeepsDefaults(ms: int)
    ensures Remove(DefaultShortcuts, Stamp(ms)) == DefaultShortcuts
  {
    RemoveStampKeepsNamed(DefaultShortcuts, ms);
  }
}
