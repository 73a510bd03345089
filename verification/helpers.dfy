/** helpers.py, the revision whose gist filter can sort the list by
    description or by file extension (`sort_gists` setting). Titles take the
    author from the gist's `user` account. */
module Helpers {
  import opened Common
  import opened Text
  import opened Naming
  import opened Sorting
  import GistHelpers

  /** The extension given to a gist whose first filename has no dot; its sort
      key puts it after every real extension. */
  const NoFilename: string := "[No Filename]"

  /** `filename.split('.')[1]`: the text between the first and the second dot
      (or the end), or NoFilename when there is no dot. */
  function FileExtension(filename: string): (r: string)
    ensures '.' !in filename ==> r == NoFilename
    ensures '.' in filename ==> '.' !in r && (exists k :: 0 <= k < |filename| && filename[k] == '.' && '.' !in filename[..k]
                                               && StartsWith(filename[k + 1..], r)
                                               && (k + 1 + |r| == |filename| || filename[k + 1 + |r|] == '.'))
  {
    var (before, found, after) := Partition(filename, '.');
    if !found then NoFilename
    else
      var (piece, more, _) := Partition(after, '.');
      var k := |before|;
      assert filename[k] == '.' && filename[..k] == before && filename[k + 1..] == after;
      assert after[..|piece|] == piece;
      assert more ==> after[|piece|] == '.';
      piece
  }

  /** The sort keys of sort_gists_data: a plain string key, or the tuple
      (extension == '[No Filename]', extension.lower()). */
  function DescriptionKey(g: Gist): SortKey
  {
    SortKey(false, Lower(if g.description.Some? then g.description.value else ""))
  }

  function FirstFileKey(g: Gist): SortKey
  {
    SortKey(false, Lower(if g.files != [] then g.files[0].name else ""))
  }

  function TitleKey(n: Label): SortKey
  {
    SortKey(false, Lower(n.title))
  }

  function ExtensionKey(ext: string): SortKey
  {
    SortKey(ext == NoFilename, Lower(ext))
  }

  function GistExtensionKey(g: Gist): SortKey
  {
    ExtensionKey(if g.extension.Some? then g.extension.value else "")
  }

  function NameExtensionKey(n: Label): SortKey
  {
    ExtensionKey(if n.second.Some? then n.second.value else "")
  }

  /** The sort types that sort by extension. */
  predicate IsExtensionSort(sortType: Value)
  {
    sortType == Str("extension") || sortType == Str("ext")
  }

  /** The sort types for which set_sort_data records an extension. */
  predicate RecordsExtension(sortType: Value)
  {
    IsExtensionSort(sortType) || sortType == Str("file extension")
  }

  /** What set_sort_data returns: None, [gist] or [gist, [title, extension]]. */
  datatype SortData = NoData | Updated(gist: Gist) | WithName(gist: Gist, filename: Label)

  /** set_sort_data: a description sort fills an empty description with the
      first filename; the extension sorts record the extension of the first
      filename on the gist and pair it with the title. */
  function SetSortData(sortType: Value, g: Gist, name: Label): (r: SortData)
    requires g.files != []
    ensures r.Updated? <==> sortType == Str("description") && g.description == Some("")
    ensures r.Updated? ==> r.gist == g.(description := Some(g.files[0].name))
    ensures r.WithName? <==> RecordsExtension(sortType)
    ensures r.WithName? ==> r.gist == g.(extension := Some(FileExtension(g.files[0].name)))
                            && r.filename == Label(name.title, r.gist.extension)
  {
    if sortType == Str("description") && g.description == Some("") then
      Updated(g.(description := Some(g.files[0].name)))
    else if RecordsExtension(sortType) then
      var ext := FileExtension(g.files[0].name);
      WithName(g.(extension := Some(ext)), Label(name.title, Some(ext)))
    else NoData
  }

  /** The three lists gists_filter builds: gists, names, and the
      [title, extension] pairs of an extension sort. */
  type Lists = (seq<Gist>, seq<Label>, seq<Label>)

  /** One pass of gists_filter's loop over the gist `g`. */
  function FilterStep(acc: Result<Lists>, g: Gist, s: Settings): Result<Lists>
  {
    match acc
    case Err(e) => Err(e)
    case Ok((gs, ns, fs)) =>
      match KeepGist(g, s, "", User)
      case Err(e) => Err(e)
      case Ok(None) => Ok((gs, ns, fs))
      case Ok(Some(n)) =>
        var sortType := Get(s, "sort_gists");
        if Truthy(sortType) then
          var d := SetSortData(sortType, g, n);
          var g2 := if d.NoData? then g else d.gist;
          Ok((gs + [g2], ns + [n], if IsExtensionSort(sortType) then fs + [d.filename] else fs))
        else Ok((gs + [g], ns + [n], fs))
  }

  /** The three lists after the loop over `all`, or the first error raised. */
  function Collected(all: seq<Gist>, s: Settings): (r: Result<Lists>)
    ensures r.Ok? ==> |r.value.0| == |r.value.1| <= |all|
  {
    if all == [] then Ok(([], [], []))
    else FilterStep(Collected(all[..|all| - 1], s), all[|all| - 1], s)
  }

  /** sort_gists_data. Python's sorted computes every key before ordering, so
      one gist whose key cannot be computed makes the whole sort raise. */
  function SortGistsData(sortType: Value, gists: seq<Gist>, names: seq<Label>, filenames: seq<Label>, s: Settings)
    : (r: Result<(seq<Gist>, seq<Label>)>)
    ensures !(sortType == Str("description") || IsExtensionSort(sortType)) ==> r == Ok((gists, names))
    ensures r.Ok? && sortType == Str("description") ==>
              && multiset(r.value.0) == multiset(gists) && multiset(r.value.1) == multiset(names)
              && Sorted(r.value.1, TitleKey)
              && (!Truthy(Get(s, "prefer_filename")) ==> Sorted(r.value.0, DescriptionKey))
              && (Truthy(Get(s, "prefer_filename")) ==> Sorted(r.value.0, FirstFileKey))
    ensures r.Ok? && IsExtensionSort(sortType) ==>
              && multiset(r.value.0) == multiset(gists) && multiset(r.value.1) == multiset(filenames)
              && Sorted(r.value.0, GistExtensionKey) && Sorted(r.value.1, NameExtensionKey)
    ensures r.Err? && sortType == Str("description") ==>
              if Truthy(Get(s, "prefer_filename"))
              then r.error == IndexError && exists g :: g in gists && g.files == []
              else r.error == AttributeError && exists g :: g in gists && g.description.None?
    ensures r.Err? && IsExtensionSort(sortType) ==>
              (r.error == KeyError && exists g :: g in gists && g.extension.None?)
              || (r.error == IndexError && exists n :: n in filenames && n.second.None?)
  {
    if sortType == Str("description") then
      SortBySorted(names, TitleKey);
      if !Truthy(Get(s, "prefer_filename")) then
        if exists g :: g in gists && g.description.None? then Err(AttributeError)
        else
          SortBySorted(gists, DescriptionKey);
          Ok((SortBy(gists, DescriptionKey), SortBy(names, TitleKey)))
      else
        if exists g :: g in gists && g.files == [] then Err(IndexError)
        else
          SortBySorted(gists, FirstFileKey);
          Ok((SortBy(gists, FirstFileKey), SortBy(names, TitleKey)))
    else if IsExtensionSort(sortType) then
      if exists g :: g in gists && g.extension.None? then Err(KeyError)
      else if exists n :: n in filenames && n.second.None? then Err(IndexError)
      else
        SortBySorted(gists, GistExtensionKey);
        SortBySorted(filenames, NameExtensionKey);
        Ok((SortBy(gists, GistExtensionKey), SortBy(filenames, NameExtensionKey)))
    else Ok((gists, names))
  }

  /** What gists_filter returns. */
  function FilterSpec(all: seq<Gist>, s: Settings): Result<(seq<Gist>, seq<Label>)>
  {
    match Collected(all, s)
    case Err(e) => Err(e)
    case Ok((gs, ns, fs)) =>
      var sortType := Get(s, "sort_gists");
      if Truthy(sortType) then SortGistsData(sortType, gs, ns, fs, s) else Ok((gs, ns))
  }

  lemma {:induction false} CollectedErrSticky(all: seq<Gist>, k: nat, s: Settings)
    requires k <= |all| && Collected(all[..k], s).Err?
    ensures Collected(all, s) == Collected(all[..k], s)
    decreases |all| - k
  {
    if k < |all| {
      assert all[..k + 1][..k] == all[..k];
      CollectedErrSticky(all, k + 1, s);
    } else {
      assert all[..k] == all;
    }
  }

  /** The lists after one more gist are one loop pass further on. */
  lemma CollectedSnoc(all: seq<Gist>, i: nat, s: Settings)
    requires i < |all|
    ensures Collected(all[..i + 1], s) == FilterStep(Collected(all[..i], s), all[i], s)
  {
    assert all[..i + 1][..i] == all[..i];
  }

  /** gists_filter: the loop appends to three lists, then the sort block
      reorders them. */
  method GistsFilter(allGists: seq<Gist>, s: Settings) returns (r: Result<(seq<Gist>, seq<Label>)>)
    ensures r == FilterSpec(allGists, s)
  {
    var sortType := Get(s, "sort_gists");
    var prefix := NonEmptyText(s, "gist_prefix");
    var tag := NonEmptyText(s, "gist_tag");
    var gists: seq<Gist> := [];
    var names: seq<Label> := [];
    var filenames: seq<Label> := [];
    var i := 0;
    while i < |allGists|
      invariant i <= |allGists|
      invariant Collected(allGists[..i], s) == Ok((gists, names, filenames))
    {
      var g := allGists[i];
      CollectedSnoc(allGists, i, s);
      var row := KeptRow(g, s, "", User, prefix, tag);
      if row.Err? {
        CollectedErrSticky(allGists, i + 1, s);
        return Err(row.error);
      }
      i := i + 1;
      if row.value.None? {
        continue;
      }
      var n := row.value.value;
      if Truthy(sortType) {
        var sortedData := SetSortData(sortType, g, n);
        if !sortedData.NoData? {
          g := sortedData.gist;
        }
        if IsExtensionSort(sortType) {
          filenames := filenames + [sortedData.filename];
        }
      }
      gists := gists + [g];
      names := names + [n];
    }
    assert allGists[..i] == allGists;
    if Truthy(sortType) {
      r := SortGistsData(sortType, gists, names, filenames, s);
    } else {
      r := Ok((gists, names));
    }
  }

  /** Without a sort and without authors, this filter is the gist_60_helpers.py
      filter with an empty name prefix. */
  lemma {:induction false} UnsortedMatchesCurrent(all: seq<Gist>, s: Settings)
    requires !Truthy(Get(s, "sort_gists")) && !Truthy(Get(s, "show_authors"))
    ensures Collected(all, s) == match GistHelpers.FilterSpec(all, s, "")
                                 case Err(e) => Err(e)
                                 case Ok((gs, ns)) => Ok((gs, ns, []))
    ensures FilterSpec(all, s) == GistHelpers.FilterSpec(all, s, "")
  {
    if all != [] {
      UnsortedMatchesCurrent(all[..|all| - 1], s);
      TitleIgnoresAuthorField(all[|all| - 1], s);
    }
  }

  /** During an extension sort the loop keeps the three lists aligned: the
      pair list holds each kept gist's title and recorded extension. */
  lemma {:induction false} CollectedExtensionAligned(all: seq<Gist>, s: Settings)
    requires IsExtensionSort(Get(s, "sort_gists")) && Collected(all, s).Ok?
    ensures var (gs, ns, fs) := Collected(all, s).value;
            |fs| == |gs| && forall i :: 0 <= i < |gs| ==> gs[i].extension.Some? && fs[i] == Label(ns[i].title, gs[i].extension)
  {
    if all != [] {
      CollectedExtensionAligned(all[..|all| - 1], s);
    }
  }

  /** In an extension sort the result is the two collected lists, each
      sorted by the extension key. */
  lemma ExtensionSortResult(all: seq<Gist>, s: Settings)
    requires IsExtensionSort(Get(s, "sort_gists")) && Collected(all, s).Ok?
    ensures var (gs0, _, fs0) := Collected(all, s).value;
            FilterSpec(all, s) == Ok((SortBy(gs0, GistExtensionKey), SortBy(fs0, NameExtensionKey)))
  {
    CollectedExtensionAligned(all, s);
    SortedFilterSpec(all, s);
    var c := Collected(all, s).value;
    var gs0, ns0, fs0 := c.0, c.1, c.2;
    forall g | g in gs0 ensures g.extension.Some? {
      var i :| 0 <= i < |gs0| && gs0[i] == g;
    }
    forall n | n in fs0 ensures n.second.Some? {
      var i :| 0 <= i < |fs0| && fs0[i] == n;
    }
    ExtensionSortOfKeyed(gs0, ns0, fs0, s);
  }

  /** sort_gists_data with an extension sort type, when every gist and every
      pair has an extension: both lists sorted by extension. */
  lemma ExtensionSortOfKeyed(gs: seq<Gist>, ns: seq<Label>, fs: seq<Label>, s: Settings)
    requires IsExtensionSort(Get(s, "sort_gists"))
    requires forall g :: g in gs ==> g.extension.Some?
    requires forall n :: n in fs ==> n.second.Some?
    ensures SortGistsData(Get(s, "sort_gists"), gs, ns, fs, s) == Ok((SortBy(gs, GistExtensionKey), SortBy(fs, NameExtensionKey)))
  {
  }

  /** With a sort type set, the result is sort_gists_data of the collected
      lists. */
  lemma SortedFilterSpec(all: seq<Gist>, s: Settings)
    requires Truthy(Get(s, "sort_gists")) && Collected(all, s).Ok?
    ensures var c := Collected(all, s).value;
            FilterSpec(all, s) == SortGistsData(Get(s, "sort_gists"), c.0, c.1, c.2, s)
  {
  }

  /** Gists sorted by the extension key have the '[No Filename]' ones last. */
  lemma NoFilenameLast(gs: seq<Gist>)
    requires Sorted(gs, GistExtensionKey)
    ensures forall i, j :: 0 <= i < j < |gs| && gs[i].extension == Some(NoFilename) ==> gs[j].extension == Some(NoFilename)
  {
    forall i, j | 0 <= i < j < |gs| && gs[i].extension == Some(NoFilename)
      ensures gs[j].extension == Some(NoFilename)
    {
      assert KeyLe(GistExtensionKey(gs[i]), GistExtensionKey(gs[j]));
    }
  }

  /** An extension sort orders gists by extension, with '[No Filename]' last,
      and applies the same permutation to the names, so that the name at each
      position carries the title and extension of the gist at that position. */
  lemma ExtensionSortAligned(all: seq<Gist>, s: Settings)
    requires IsExtensionSort(Get(s, "sort_gists")) && Collected(all, s).Ok?
    ensures FilterSpec(all, s).Ok?
    ensures var (gs, ns) := FilterSpec(all, s).value;
            var (gs0, ns0, _) := Collected(all, s).value;
            && |gs| == |ns| == |gs0|
            && Sorted(gs, GistExtensionKey)
            && (forall i, j :: 0 <= i < j < |gs| && gs[i].extension == Some(NoFilename) ==> gs[j].extension == Some(NoFilename))
            && forall i :: 0 <= i < |gs| ==>
                 ns[i].second == gs[i].extension
                 && exists j :: 0 <= j < |gs0| && gs[i] == gs0[j] && ns[i].title == ns0[j].title
  {
    var (gs0, ns0, fs0) := Collected(all, s).value;
    CollectedExtensionAligned(all, s);
    ExtensionSortResult(all, s);
    assert KeysAligned(gs0, fs0, GistExtensionKey, NameExtensionKey);
    var gs, ns := SortBy(gs0, GistExtensionKey), SortBy(fs0, NameExtensionKey);
    SortBySorted(gs0, GistExtensionKey);
    NoFilenameLast(gs);
    forall i | 0 <= i < |gs|
      ensures ns[i].second == gs[i].extension
      ensures exists j :: 0 <= j < |gs0| && gs[i] == gs0[j] && ns[i].title == ns0[j].title
    {
      SortKeepsPairs(gs0, fs0, GistExtensionKey, NameExtensionKey, i);
    }
  }

  /** A description sort returns a sorted permutation of the filtered gists
      and, ordered on their own, a sorted permutation of their names. */
  lemma DescriptionSortSorted(all: seq<Gist>, s: Settings)
    requires Get(s, "sort_gists") == Str("description") && FilterSpec(all, s).Ok?
    ensures var (gs, ns) := FilterSpec(all, s).value;
            var (gs0, ns0, _) := Collected(all, s).value;
            && multiset(gs) == multiset(gs0) && multiset(ns) == multiset(ns0)
            && Sorted(gs, if Truthy(Get(s, "prefer_filename")) then FirstFileKey else DescriptionKey)
            && Sorted(ns, TitleKey)
  {
    var (gs0, ns0, fs0) := Collected(all, s).value;
    SortedFilterSpec(all, s);
    var gs := FilterSpec(all, s).value.0;
    if Truthy(Get(s, "prefer_filename")) {
      assert gs == SortBy(gs0, FirstFileKey);
      SortBySorted(gs0, FirstFileKey);
    } else {
      assert gs == SortBy(gs0, DescriptionKey);
      SortBySorted(gs0, DescriptionKey);
    }
  }

  /** The loop fills an empty description with the first filename before a
      description sort. */
  lemma {:induction false} CollectedDescriptionsFilled(all: seq<Gist>, s: Settings)
    requires Get(s, "sort_gists") == Str("description") && Collected(all, s).Ok?
    ensures forall g :: g in Collected(all, s).value.0 ==>
              g.files != [] && (g.description == Some("") ==> g.files[0].name == "")
  {
    if all != [] {
      CollectedDescriptionsFilled(all[..|all| - 1], s);
    }
  }

  /** 'file extension' records extensions but neither collects names nor
      sorts: the result is the filtered gists in input order. */
  lemma {:induction false} FileExtensionKeepsOrder(all: seq<Gist>, s: Settings)
    requires Get(s, "sort_gists") == Str("file extension") && Collected(all, s).Ok?
    ensures FilterSpec(all, s) == Ok((Collected(all, s).value.0, Collected(all, s).value.1))
    ensures Collected(all, s).value.2 == []
    ensures forall g :: g in Collected(all, s).value.0 ==> g.files != [] && g.extension == Some(FileExtension(g.files[0].name))
  {
    if all != [] {
      FileExtensionKeepsOrder(all[..|all| - 1], s);
    }
  }
}
