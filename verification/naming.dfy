/** Naming logic that every revision of the plugin repeats word for word:
    the display title of a gist, the `gist_prefix` strip, the `#tag` token
    search of the regex `(^|\s)#tag($|\s)`, and the mapping from a selected
    quick-panel index to the organisation, user or gist it stands for. */
module Naming {
  import opened Common
  import opened Text

  /** Where the author's login is read from: `owner` (gist_60_helpers.py) or
      `user` (helpers.py and gist.py). */
  datatype AuthorField = Owner | User

  function Author(g: Gist, field: AuthorField): Option<string>
  {
    if field == Owner then g.owner else g.user
  }

  /** The title is the description when it is non-empty and the
      `prefer_filename` setting is exactly False (a missing or null setting
      is not False). */
  predicate UsesDescription(g: Gist, s: Settings)
  {
    g.description.Some? && g.description.value != [] && Get(s, "prefer_filename") == Bool(false)
  }

  /** `gist_title`: [title] or, when `show_authors` is truthy, [title, login].
      The first filename is taken in mapping order; a gist without files and
      without a usable description raises IndexError, a missing account object
      raises AttributeError. */
  function GistTitle(g: Gist, s: Settings, field: AuthorField): (r: Result<Label>)
    ensures r.Ok? && UsesDescription(g, s) ==> r.value.title == g.description.value
    ensures r.Ok? && !UsesDescription(g, s) ==> g.files != [] && r.value.title == g.files[0].name
    ensures r.Ok? ==> (r.value.second.Some? <==> Truthy(Get(s, "show_authors")))
    ensures r.Ok? && r.value.second.Some? ==> r.value.second == Author(g, field)
    ensures r.Err? <==> (!UsesDescription(g, s) && g.files == [])
                        || (Truthy(Get(s, "show_authors")) && Author(g, field).None?)
  {
    if !UsesDescription(g, s) && g.files == [] then Err(IndexError)
    else
      var title := if UsesDescription(g, s) then g.description.value else g.files[0].name;
      if Truthy(Get(s, "show_authors")) then
        match Author(g, field)
        case None => Err(AttributeError)
        case Some(login) => Ok(Label(title, Some(login)))
      else Ok(Label(title, None))
  }

  /** Without `show_authors` the two revisions of `gist_title` agree. */
  lemma TitleIgnoresAuthorField(g: Gist, s: Settings)
    requires !Truthy(Get(s, "show_authors"))
    ensures GistTitle(g, s, Owner) == GistTitle(g, s, User)
  {
  }

  /** The `gist_prefix` step of gists_filter: without a prefix the title is
      kept; with one, the gist survives only if its title starts with it, and
      loses exactly those leading characters. */
  function StripPrefix(title: string, prefix: Option<string>): (r: Option<string>)
    ensures prefix.None? ==> r == Some(title)
    ensures prefix.Some? ==> (r.Some? <==> StartsWith(title, prefix.value))
    ensures prefix.Some? && r.Some? ==> title == prefix.value + r.value
  {
    match prefix
    case None => Some(title)
    case Some(p) =>
      if StartsWith(title, p) then
        assert title == p + title[|p|..];
        Some(title[|p|..])
      else None
  }

  /** The regex token ends at `p` when `p` is the end of the text (`$`) or a
      whitespace character follows (`\s`, which the match consumes). */
  predicate TokenEndsAt(s: string, p: nat)
  {
    p == |s| || (p < |s| && IsSpace(s[p]))
  }

  /** Where a match of `(^|\s)#tag($|\s)` that starts at index `i` ends, or
      None when none starts there. `^` is tried before `\s`, `$` before `\s`. */
  function TagMatchAt(s: string, tag: string, i: nat): (r: Option<nat>)
    ensures r.Some? ==> i < r.value <= |s|
    ensures r.Some? ==> (i == 0 && StartsWith(s, "#" + tag))
                        || (i < |s| && IsSpace(s[i]) && StartsWith(s[i + 1..], "#" + tag))
    ensures r.Some? ==> r.value == |s| || IsSpace(s[r.value - 1])
  {
    var token := "#" + tag;
    if i == 0 && StartsWith(s, token) && TokenEndsAt(s, |token|) then
      Some(if |token| == |s| then |token| else |token| + 1)
    else if i < |s| && IsSpace(s[i]) && StartsWith(s[i + 1..], token) && TokenEndsAt(s, i + 1 + |token|) then
      var p := i + 1 + |token|;
      Some(if p == |s| then p else p + 1)
    else None
  }

  /** `re.search`: the leftmost start index from `i` on where the token
      matches, with the end of that match. */
  function FindTagFrom(s: string, tag: string, i: nat): (r: Option<(nat, nat)>)
    requires i <= |s|
    ensures r.Some? ==> i <= r.value.0 < |s| && TagMatchAt(s, tag, r.value.0) == Some(r.value.1)
    ensures r.Some? ==> forall j :: i <= j < r.value.0 ==> TagMatchAt(s, tag, j).None?
    ensures r.None? ==> forall j :: i <= j <= |s| ==> TagMatchAt(s, tag, j).None?
    decreases |s| - i
  {
    if i == |s| then None
    else match TagMatchAt(s, tag, i)
      case Some(e) => Some((i, e))
      case None => FindTagFrom(s, tag, i + 1)
  }

  /** The `gist_tag` step of gists_filter: the gist survives only if its title
      holds the token, and the leftmost match (with the whitespace it consumed
      on either side) is cut out. */
  function RemoveTag(title: string, tag: string): (r: Option<string>)
    ensures r.None? <==> forall j :: 0 <= j <= |title| ==> TagMatchAt(title, tag, j).None?
    ensures r.Some? ==> exists st, en :: 0 <= st < en <= |title|
                          && TagMatchAt(title, tag, st) == Some(en)
                          && (forall j :: 0 <= j < st ==> TagMatchAt(title, tag, j).None?)
                          && r.value == title[..st] + title[en..]
  {
    match FindTagFrom(title, tag, 0)
    case None => None
    case Some((st, en)) => Some(title[..st] + title[en..])
  }

  /** The tag step with the setting: no tag keeps the title unchanged. */
  function ApplyTag(title: string, tag: Option<string>): (r: Option<string>)
    ensures tag.None? ==> r == Some(title)
    ensures tag.Some? ==> r == RemoveTag(title, tag.value)
  {
    match tag
    case None => Some(title)
    case Some(t) => RemoveTag(title, t)
  }

  /** What gists_filter (gist_60_helpers.py and helpers.py) does with one gist:
      Err when gist_title raises (before the files check), None when the gist
      is dropped, else its quick-panel row. */
  function KeepGist(g: Gist, s: Settings, namePrefix: string, field: AuthorField): (r: Result<Option<Label>>)
    ensures r.Err? <==> GistTitle(g, s, field).Err?
    ensures r.Ok? && r.value.Some? ==> g.files != []
    ensures r.Ok? ==> (r.value.Some? <==>
              g.files != []
              && StripPrefix(GistTitle(g, s, field).value.title, NonEmptyText(s, "gist_prefix")).Some?
              && ApplyTag(StripPrefix(GistTitle(g, s, field).value.title, NonEmptyText(s, "gist_prefix")).value,
                          NonEmptyText(s, "gist_tag")).Some?)
    ensures r.Ok? && r.value.Some? ==>
              var name := GistTitle(g, s, field).value;
              var stripped := StripPrefix(name.title, NonEmptyText(s, "gist_prefix")).value;
              r.value.value == Label(namePrefix + ApplyTag(stripped, NonEmptyText(s, "gist_tag")).value, name.second)
  {
    match GistTitle(g, s, field)
    case Err(e) => Err(e)
    case Ok(name) =>
      if g.files == [] then Ok(None)
      else match StripPrefix(name.title, NonEmptyText(s, "gist_prefix"))
        case None => Ok(None)
        case Some(stripped) =>
          match ApplyTag(stripped, NonEmptyText(s, "gist_tag"))
          case None => Ok(None)
          case Some(t) => Ok(Some(Label(namePrefix + t, name.second)))
  }

  /** The body of gists_filter's loop for one gist, up to the append: the
      error gist_title raises, None where the loop continues, else the row.
      `prefix` and `tag` are the settings the function reads before the loop. */
  method KeptRow(g: Gist, s: Settings, namePrefix: string, field: AuthorField, prefix: Option<string>, tag: Option<string>)
    returns (r: Result<Option<Label>>)
    requires prefix == NonEmptyText(s, "gist_prefix") && tag == NonEmptyText(s, "gist_tag")
    ensures r == KeepGist(g, s, namePrefix, field)
  {
    var name := GistTitle(g, s, field);
    if name.Err? {
      return Err(name.error);
    }
    if g.files == [] {
      return Ok(None);
    }
    var title := name.value.title;
    if prefix.Some? {
      if StartsWith(title, prefix.value) {
        title := title[|prefix.value|..];
      } else {
        return Ok(None);
      }
    }
    assert StripPrefix(name.value.title, prefix) == Some(title);
    if tag.Some? {
      var found := RemoveTag(title, tag.value);
      if found.None? {
        return Ok(None);
      }
      title := found.value;
    }
    return Ok(Some(Label(namePrefix + title, name.value.second)));
  }

  /** A quick-panel entry: a plain string (gist.py's '> user' rows) or a
      list row. */
  datatype PanelRow = Plain(text: string) | Row(entry: Label)

  /** What a selected quick-panel index stands for. */
  datatype Selection = Cancelled | PickOrg(org: nat) | PickUser(user: nat) | PickGist(gist: nat)

  /** `on_gist_num`'s dispatch: the first `orgCount` indices are
      organisations, the next `userCount` users, the rest gists; a negative
      index (the panel was dismissed) selects nothing. */
  function Dispatch(num: int, orgCount: nat, userCount: nat): (r: Selection)
    ensures r.Cancelled? <==> num < 0
    ensures r.PickOrg? ==> r.org == num && num < orgCount
    ensures r.PickUser? ==> r.user == num - orgCount && orgCount <= num < orgCount + userCount
    ensures r.PickGist? ==> r.gist == num - orgCount - userCount && orgCount + userCount <= num
  {
    if num < 0 then Cancelled
    else if num < orgCount then PickOrg(num)
    else if num < orgCount + userCount then PickUser(num - orgCount)
    else PickGist(num - orgCount - userCount)
  }

  /** Rows "> name" for organisations and users, in gist_80.py's list form. */
  function LinkRows(names: seq<string>): (r: seq<PanelRow>)
    ensures |r| == |names|
    ensures forall i :: 0 <= i < |names| ==> r[i] == Row(Label("> " + names[i], None))
  {
    seq(|names|, i requires 0 <= i < |names| => Row(Label("> " + names[i], None)))
  }

  /** Gist rows of the quick panel. */
  function GistRows(names: seq<Label>): (r: seq<PanelRow>)
    ensures |r| == |names|
    ensures forall i :: 0 <= i < |names| ==> r[i] == Row(names[i])
  {
    seq(|names|, i requires 0 <= i < |names| => Row(names[i]))
  }
}
