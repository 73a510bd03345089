/** gist_60_helpers.py, the current helpers: linking a view to a gist, the
    display title, the gist filter of the list commands and the syntax
    chosen for an opened gist file. */
module GistHelpers {
  import opened Common
  import opened Text
  import opened Naming

  /** The view settings that mark a view as linked to a gist. */
  const GistKeys: set<string> := {"gist_html_url", "gist_description", "gist_url", "gist_filename"}

  /** gist['description'] as a settings value. */
  function DescriptionValue(d: Option<string>): (v: Value)
    ensures d.None? <==> v == Null
    ensures d.Some? ==> v == Str(d.value)
  {
    match d
    case None => Null
    case Some(t) => Str(t)
  }

  /** The view settings after gistify_view: the four gist keys hold the
      gist's links, its description and the file name; nothing else changes. */
  function Linked(m: Settings, g: Gist, gistFilename: string): (r: Settings)
    ensures r.Keys == m.Keys + GistKeys
    ensures r["gist_html_url"] == Str(g.htmlUrl) && r["gist_description"] == DescriptionValue(g.description)
    ensures r["gist_url"] == Str(g.url) && r["gist_filename"] == Str(gistFilename)
    ensures forall k :: k in m && k !in GistKeys ==> r[k] == m[k]
  {
    m["gist_html_url" := Str(g.htmlUrl)]["gist_description" := DescriptionValue(g.description)]
     ["gist_url" := Str(g.url)]["gist_filename" := Str(gistFilename)]
  }

  /** `view.file_name()` is truthy. */
  predicate HasFile(fileName: Option<string>)
  {
    fileName.Some? && fileName.value != []
  }

  /** The status-bar text of a linked view: the title, followed by the gist's
      file name in parentheses only when the view is saved under another base
      name. */
  function StatusLine(title: string, fileName: Option<string>, gistFilename: string): (r: string)
    ensures StartsWith(r, "Gist: " + title)
    ensures HasFile(fileName) && Basename(fileName.value) != gistFilename ==> r == "Gist: " + title + " (" + gistFilename + ")"
    ensures !(HasFile(fileName) && Basename(fileName.value) != gistFilename) ==> r == "Gist: " + title
  {
    var line := "Gist: " + title;
    if HasFile(fileName) && Basename(fileName.value) != gistFilename then
      assert (line + " (" + gistFilename + ")")[..|line|] == line;
      line + " (" + gistFilename + ")"
    else line
  }

  /** gistify_view: a failing title leaves the view untouched; otherwise an
      unsaved view is named after the gist file, the four keys are written
      and the status set. */
  method GistifyView(view: View, g: Gist, gistFilename: string, s: Settings) returns (err: Option<Error>)
    modifies view
    ensures GistTitle(g, s, Owner).Err? ==> err == Some(GistTitle(g, s, Owner).error) && unchanged(view)
    ensures GistTitle(g, s, Owner).Ok? ==>
              && err.None?
              && view.settings == Linked(old(view.settings), g, gistFilename)
              && view.status == old(view.status)["Gist" := StatusLine(GistTitle(g, s, Owner).value.title, old(view.fileName), gistFilename)]
              && view.name == (if HasFile(old(view.fileName)) then old(view.name) else gistFilename)
              && view.fileName == old(view.fileName)
  {
    var title := GistTitle(g, s, Owner);
    if title.Err? {
      return Some(title.error);
    }
    var line := "Gist: " + title.value.title;
    if !HasFile(view.fileName) {
      view.name := gistFilename;
    } else if Basename(view.fileName.value) != gistFilename {
      line := line + " (" + gistFilename + ")";
    }
    view.settings := view.settings["gist_html_url" := Str(g.htmlUrl)];
    view.settings := view.settings["gist_description" := DescriptionValue(g.description)];
    view.settings := view.settings["gist_url" := Str(g.url)];
    view.settings := view.settings["gist_filename" := Str(gistFilename)];
    view.status := view.status["Gist" := line];
    return None;
  }

  /** ungistify_view: the four keys and the status entry are erased. */
  method UngistifyView(view: View)
    modifies view
    ensures view.settings == old(view.settings) - GistKeys
    ensures view.status == old(view.status) - {"Gist"}
    ensures view.fileName == old(view.fileName) && view.name == old(view.name)
  {
    view.settings := view.settings - {"gist_html_url"};
    view.settings := view.settings - {"gist_description"};
    view.settings := view.settings - {"gist_url"};
    view.settings := view.settings - {"gist_filename"};
    view.status := view.status - {"Gist"};
  }

  /** Unlinking a linked view leaves exactly the settings it had apart from
      the gist keys. */
  lemma UnlinkLinked(m: Settings, g: Gist, gistFilename: string)
    ensures Linked(m, g, gistFilename) - GistKeys == m - GistKeys
  {
    var l := Linked(m, g, gistFilename);
    assert (l - GistKeys).Keys == (m - GistKeys).Keys;
  }

  /** The syntax file for a gist file's language: None (nothing changes) when
      the language is absent or null; 'C' lives in the C++ package. */
  function SyntaxPath(language: Option<string>): (r: Option<string>)
    ensures r.None? <==> language.None?
    ensures language == Some("C") ==> r == Some("Packages/C++/C.tmLanguage")
    ensures language.Some? && language.value != "" && language.value != "C" && '/' !in language.value ==>
              r == Some("Packages/" + language.value + "/" + language.value + ".tmLanguage")
  {
    match language
    case None => None
    case Some(l) =>
      var dir := if l == "C" then "C++" else l;
      var file := l + ".tmLanguage";
      if l != "" && '/' !in l then
        assert file[0] == l[0] && dir[|dir| - 1] != '/';
        PackagePath(dir, file);
        if l == "C" then
          CPackagePath();
          Some(Join("Packages", Join(dir, file)))
        else
          assert "Packages/" + dir + "/" + file == "Packages/" + l + "/" + l + ".tmLanguage";
          Some(Join("Packages", Join(dir, file)))
      else Some(Join("Packages", Join(dir, file)))
  }

  lemma CPackagePath()
    ensures "Packages/" + "C++" + "/" + ("C" + ".tmLanguage") == "Packages/C++/C.tmLanguage"
  {
  }

  /** A relative file in a package directory that does not end in '/'. */
  lemma PackagePath(dir: string, file: string)
    requires dir != [] && dir[0] != '/' && dir[|dir| - 1] != '/'
    requires file != [] && file[0] != '/'
    ensures Join("Packages", Join(dir, file)) == "Packages/" + dir + "/" + file
  {
    var inner := dir + "/" + file;
    assert Join(dir, file) == inner;
    assert inner[0] == dir[0];
    assert Join("Packages", inner) == "Packages" + "/" + inner;
  }

  /** The syntax file is named after the language, so different languages get
      different syntax files. */
  lemma {:induction false} SyntaxFileNamesLanguage(l: string)
    requires '/' !in l
    ensures Basename(SyntaxPath(Some(l)).value) == l + ".tmLanguage"
  {
    var dir := if l == "C" then "C++" else l;
    var file := l + ".tmLanguage";
    assert '/' !in file by {
      assert forall k :: |l| <= k < |file| ==> file[k] == ".tmLanguage"[k - |l|];
    }
    if dir == [] {
      assert Join(dir, file) == file;
      assert SyntaxPath(Some(l)).value == "Packages" + "/" + file;
    } else {
      assert dir[|dir| - 1] != '/' by {
        if l != "C" { assert dir[|dir| - 1] in l; }
      }
      assert Join(dir, file) == dir + "/" + file;
      assert SyntaxPath(Some(l)).value == ("Packages" + "/" + dir) + "/" + file;
    }
    BasenameAfterSlash(if dir == [] then "Packages" else "Packages" + "/" + dir, file);
  }

  lemma SyntaxPathInjective(a: string, b: string)
    requires '/' !in a && '/' !in b
    requires SyntaxPath(Some(a)) == SyntaxPath(Some(b))
    ensures a == b
  {
    SyntaxFileNamesLanguage(a);
    SyntaxFileNamesLanguage(b);
    var fa, fb := a + ".tmLanguage", b + ".tmLanguage";
    assert fa[..|a|] == a && fb[..|b|] == b;
  }

  /** One gists_filter step: the result so far extended by the gist `g`. */
  function FilterStep(acc: Result<(seq<Gist>, seq<Label>)>, g: Gist, s: Settings, namePrefix: string): Result<(seq<Gist>, seq<Label>)>
  {
    match acc
    case Err(e) => Err(e)
    case Ok((gs, ns)) =>
      match KeepGist(g, s, namePrefix, Owner)
      case Err(e) => Err(e)
      case Ok(None) => Ok((gs, ns))
      case Ok(Some(n)) => Ok((gs + [g], ns + [n]))
  }

  /** What gists_filter returns for the gists of `all`, processed in order:
      the kept gists and their rows, or the first error raised. */
  function FilterSpec(all: seq<Gist>, s: Settings, namePrefix: string): (r: Result<(seq<Gist>, seq<Label>)>)
    ensures r.Ok? ==> |r.value.0| == |r.value.1| <= |all|
  {
    if all == [] then Ok(([], []))
    else FilterStep(FilterSpec(all[..|all| - 1], s, namePrefix), all[|all| - 1], s, namePrefix)
  }

  /** Once a prefix of the input raises, the whole call raises the same. */
  lemma {:induction false} FilterSpecErrSticky(all: seq<Gist>, k: nat, s: Settings, namePrefix: string)
    requires k <= |all| && FilterSpec(all[..k], s, namePrefix).Err?
    ensures FilterSpec(all, s, namePrefix) == FilterSpec(all[..k], s, namePrefix)
    decreases |all| - k
  {
    if k < |all| {
      var next := all[..k + 1];
      assert next[..k] == all[..k];
      FilterSpecErrSticky(all, k + 1, s, namePrefix);
    } else {
      assert all[..k] == all;
    }
  }

  /** gists_filter: a loop over the gists that appends each kept gist and its
      row to two lists. */
  method GistsFilter(allGists: seq<Gist>, s: Settings, namePrefix: string) returns (r: Result<(seq<Gist>, seq<Label>)>)
    ensures r == FilterSpec(allGists, s, namePrefix)
  {
    var prefix := NonEmptyText(s, "gist_prefix");
    var tag := NonEmptyText(s, "gist_tag");
    var gists: seq<Gist> := [];
    var names: seq<Label> := [];
    var i := 0;
    while i < |allGists|
      invariant i <= |allGists|
      invariant FilterSpec(allGists[..i], s, namePrefix) == Ok((gists, names))
    {
      var g := allGists[i];
      assert allGists[..i + 1][..i] == allGists[..i];
      assert FilterSpec(allGists[..i + 1], s, namePrefix) == FilterStep(Ok((gists, names)), g, s, namePrefix);
      var row := KeptRow(g, s, namePrefix, Owner, prefix, tag);
      if row.Err? {
        FilterSpecErrSticky(allGists, i + 1, s, namePrefix);
        return Err(row.error);
      }
      i := i + 1;
      if row.value.None? {
        continue;
      }
      gists := gists + [g];
      names := names + [row.value.value];
    }
    assert allGists[..i] == allGists;
    return Ok((gists, names));
  }

  /** The two lists are aligned: each row is the kept row of the gist at the
      same position, and no returned gist has an empty `files` mapping. */
  lemma {:induction false} FilterAligned(all: seq<Gist>, s: Settings, namePrefix: string)
    requires FilterSpec(all, s, namePrefix).Ok?
    ensures var (gs, ns) := FilterSpec(all, s, namePrefix).value;
            forall i :: 0 <= i < |gs| ==> KeepGist(gs[i], s, namePrefix, Owner) == Ok(Some(ns[i])) && gs[i].files != []
  {
    if all != [] {
      FilterAligned(all[..|all| - 1], s, namePrefix);
    }
  }

  /** The returned gists keep input order. */
  lemma {:induction false} FilterSubsequence(all: seq<Gist>, s: Settings, namePrefix: string)
    requires FilterSpec(all, s, namePrefix).Ok?
    ensures IsSubsequence(FilterSpec(all, s, namePrefix).value.0, all)
  {
    if all != [] {
      var init := all[..|all| - 1];
      FilterSubsequence(init, s, namePrefix);
      var gs := FilterSpec(init, s, namePrefix).value.0;
      var last := all[|all| - 1];
      if KeepGist(last, s, namePrefix, Owner).value.Some? {
        assert (gs + [last])[..|gs|] == gs;
        assert (gs + [last])[|gs|] == last;
      }
    }
  }

  /** Every gist the rules keep is returned. */
  lemma {:induction false} FilterComplete(all: seq<Gist>, s: Settings, namePrefix: string, g: Gist)
    requires FilterSpec(all, s, namePrefix).Ok?
    requires g in all && KeepGist(g, s, namePrefix, Owner).Ok? && KeepGist(g, s, namePrefix, Owner).value.Some?
    ensures g in FilterSpec(all, s, namePrefix).value.0
  {
    var init := all[..|all| - 1];
    var last := all[|all| - 1];
    assert all == init + [last];
    if g != last {
      FilterComplete(init, s, namePrefix, g);
    }
  }

  /** gists_filter raises exactly when some gist's title raises, and it
      raises the error of the first such gist. */
  lemma {:induction false} FilterError(all: seq<Gist>, s: Settings, namePrefix: string)
    ensures FilterSpec(all, s, namePrefix).Err? <==> exists i :: 0 <= i < |all| && KeepGist(all[i], s, namePrefix, Owner).Err?
    ensures FilterSpec(all, s, namePrefix).Err? ==>
              exists i :: 0 <= i < |all| && KeepGist(all[i], s, namePrefix, Owner) == Err(FilterSpec(all, s, namePrefix).error)
                          && forall j :: 0 <= j < i ==> KeepGist(all[j], s, namePrefix, Owner).Ok?
  {
    if all != [] {
      var init := all[..|all| - 1];
      FilterError(init, s, namePrefix);
      assert forall j :: 0 <= j < |init| ==> init[j] == all[j];
    }
  }
}
