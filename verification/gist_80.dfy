/** gist_80.py, the current command module: settings normalisation and the
    endpoint URLs, the request bodies of create_gist and update_gist, the
    file order of open_gist and insert_gist_embed, the file names of a new
    gist, the list command's state and selection, and the save listener.
    API responses are parameters; requests are returned as values. */
module Gist80 {
  import opened Common
  import opened Text
  import opened Decimal
  import opened Naming
  import opened Sorting
  import GistHelpers

  // ---------------------------------------------------------------------
  // set_settings

  /** `'?per_page=%d' % n`. */
  function PerPage(n: int): string
  {
    "?per_page=" + IntText(n)
  }

  /** The five endpoint URLs set_settings stores for API root `api` and page
      size `n`. */
  function WithEndpoints(m: Settings, api: string, n: int): Settings
  {
    m["GISTS_URL" := Str(api + "/gists" + PerPage(n))]
     ["USER_GISTS_URL" := Str(api + "/users/%s/gists" + PerPage(n))]
     ["STARRED_GISTS_URL" := Str(api + "/gists/starred" + PerPage(n))]
     ["ORGS_URL" := Str(api + "/user/orgs")]
     ["ORG_MEMBERS_URL" := Str(api + "/orgs/%s/members")]
  }

  const EndpointKeys: set<string> := {"GISTS_URL", "USER_GISTS_URL", "STARRED_GISTS_URL", "ORGS_URL", "ORG_MEMBERS_URL"}

  /** set_settings as a function of the settings it starts from: the error it
      raises, if any, and the settings it leaves. A `max_gists` that is not a
      number, or an `api_url` that is not text, raises TypeError (comparison
      with 100, concatenation). */
  function SetSettingsSpec(m: Settings): (Option<Error>, Settings)
  {
    match AsInt(Get(m, "max_gists"))
    case None => (Some(TypeError), m)
    case Some(n) =>
      var clamped := if n > 100 then m["max_gists" := Int(100)] else m;
      var size := if n > 100 then 100 else n;
      match Common.Text(clamped, "api_url")
      case None => (Some(TypeError), clamped)
      case Some(api) => (None, WithEndpoints(clamped, api, size))
  }

  /** set_settings: clamp `max_gists`, then write the five endpoint URLs. */
  method SetSettings(store: SettingsStore) returns (err: Option<Error>)
    modifies store
    ensures (err, store.values) == SetSettingsSpec(old(store.values))
  {
    var maxGists := AsInt(Get(store.values, "max_gists"));
    if maxGists.None? {
      return Some(TypeError);
    }
    if maxGists.value > 100 {
      store.Set("max_gists", Int(100));
    }
    var urlArgs := PerPage(AsInt(Get(store.values, "max_gists")).value);
    var apiUrl := Common.Text(store.values, "api_url");
    if apiUrl.None? {
      return Some(TypeError);
    }
    store.Set("GISTS_URL", Str(apiUrl.value + "/gists" + urlArgs));
    store.Set("USER_GISTS_URL", Str(apiUrl.value + "/users/%s/gists" + urlArgs));
    store.Set("STARRED_GISTS_URL", Str(apiUrl.value + "/gists/starred" + urlArgs));
    store.Set("ORGS_URL", Str(apiUrl.value + "/user/orgs"));
    store.Set("ORG_MEMBERS_URL", Str(apiUrl.value + "/orgs/%s/members"));
    return None;
  }

  lemma WithEndpointsGet(m: Settings, api: string, n: int)
    ensures var m2 := WithEndpoints(m, api, n);
            && Get(m2, "GISTS_URL") == Str(api + "/gists" + PerPage(n))
            && Get(m2, "USER_GISTS_URL") == Str(api + "/users/%s/gists" + PerPage(n))
            && Get(m2, "STARRED_GISTS_URL") == Str(api + "/gists/starred" + PerPage(n))
            && Get(m2, "ORGS_URL") == Str(api + "/user/orgs")
            && Get(m2, "ORG_MEMBERS_URL") == Str(api + "/orgs/%s/members")
            && forall k :: k !in EndpointKeys ==> Get(m2, k) == Get(m, k)
  {
    EndpointValues(m, api, n);
    EndpointsKeepOthers(m, api, n);
  }

  lemma EndpointValues(m: Settings, api: string, n: int)
    ensures var m2 := WithEndpoints(m, api, n);
            && Get(m2, "GISTS_URL") == Str(api + "/gists" + PerPage(n))
            && Get(m2, "USER_GISTS_URL") == Str(api + "/users/%s/gists" + PerPage(n))
            && Get(m2, "STARRED_GISTS_URL") == Str(api + "/gists/starred" + PerPage(n))
            && Get(m2, "ORGS_URL") == Str(api + "/user/orgs")
            && Get(m2, "ORG_MEMBERS_URL") == Str(api + "/orgs/%s/members")
  {
  }

  lemma EndpointsKeepOthers(m: Settings, api: string, n: int)
    ensures var m2 := WithEndpoints(m, api, n);
            forall k :: k !in EndpointKeys ==> Get(m2, k) == Get(m, k)
  {
  }

  /** After a successful set_settings the page size is at most 100: a larger
      `max_gists` is replaced by 100, a smaller one kept. The three gist-list
      URLs carry `?per_page=N` for that size, the two organisation URLs carry
      no query, and no other setting changes. */
  lemma SetSettingsEndpoints(m: Settings)
    ensures SetSettingsSpec(m).0.Some? <==> AsInt(Get(m, "max_gists")).None? || Common.Text(m, "api_url").None?
    ensures SetSettingsSpec(m).0.None? ==>
              var m2 := SetSettingsSpec(m).1;
              var n := AsInt(Get(m, "max_gists")).value;
              var size := if n > 100 then 100 else n;
              var api := Common.Text(m, "api_url").value;
              && Get(m2, "max_gists") == (if n > 100 then Int(100) else Get(m, "max_gists"))
              && AsInt(Get(m2, "max_gists")) == Some(size) && size <= 100
              && Get(m2, "GISTS_URL") == Str(api + "/gists" + PerPage(size))
              && Get(m2, "USER_GISTS_URL") == Str(api + "/users/%s/gists" + PerPage(size))
              && Get(m2, "STARRED_GISTS_URL") == Str(api + "/gists/starred" + PerPage(size))
              && Get(m2, "ORGS_URL") == Str(api + "/user/orgs")
              && Get(m2, "ORG_MEMBERS_URL") == Str(api + "/orgs/%s/members")
              && forall k :: k !in EndpointKeys && k != "max_gists" ==> Get(m2, k) == Get(m, k)
  {
    if AsInt(Get(m, "max_gists")).Some? {
      var n := AsInt(Get(m, "max_gists")).value;
      var clamped := if n > 100 then m["max_gists" := Int(100)] else m;
      var size := if n > 100 then 100 else n;
      assert Common.Text(clamped, "api_url") == Common.Text(m, "api_url");
      if Common.Text(m, "api_url").Some? {
        var api := Common.Text(m, "api_url").value;
        assert SetSettingsSpec(m).1 == WithEndpoints(clamped, api, size);
        WithEndpointsGet(clamped, api, size);
        assert "max_gists" !in EndpointKeys;
      }
    }
  }

  /** Unlike Settings.load in settings.py, set_settings can be re-run on
      every reload: a second run changes nothing. */
  lemma SetSettingsIdempotent(m: Settings)
    requires SetSettingsSpec(m).0.None?
    ensures SetSettingsSpec(SetSettingsSpec(m).1) == SetSettingsSpec(m)
  {
    var n := AsInt(Get(m, "max_gists")).value;
    var clamped := if n > 100 then m["max_gists" := Int(100)] else m;
    var size := if n > 100 then 100 else n;
    var api := Common.Text(clamped, "api_url").value;
    var m2 := WithEndpoints(clamped, api, size);
    assert Get(m2, "max_gists") == Get(clamped, "max_gists");
    assert AsInt(Get(m2, "max_gists")) == Some(size);
    assert Common.Text(m2, "api_url") == Some(api);
    assert WithEndpoints(m2, api, size) == m2;
  }

  // ---------------------------------------------------------------------
  // create_gist and update_gist

  /** A call of api_request: the URL (a settings value), the JSON body, the
      token and proxy arguments (Null when not passed) and the HTTP method. */
  datatype ApiCall = ApiCall(url: Value, data: Option<Json>, token: Value, httpsProxy: Value, verb: Option<string>)

  /** The `files` member of a create request: each file name mapped to
      {"content": text}. */
  function FilesField(files: map<string, string>): Json
  {
    JObject(map name | name in files :: JObject(map["content" := JStr(files[name])]))
  }

  /** The files a request body submits, as the Gist API reads them back:
      the `content` of every entry of the body's `files` object. */
  function SubmittedFiles(body: Json): Option<map<string, string>>
  {
    if body.JObject? && "files" in body.fields && body.fields["files"].JObject? then
      var fs := body.fields["files"].fields;
      if forall name :: name in fs ==> fs[name].JObject? && "content" in fs[name].fields && fs[name].fields["content"].JStr?
      then Some(map name | name in fs :: fs[name].fields["content"].s)
      else None
    else None
  }

  /** create_gist: no request at all when some file's text is empty;
      otherwise a POST of description, public flag and files to GISTS_URL. */
  function CreateGist(public: bool, description: string, files: map<string, string>, s: Settings): (r: Option<ApiCall>)
    ensures r.None? <==> exists name :: name in files && files[name] == ""
    ensures r.Some? ==> r.value.url == Get(s, "GISTS_URL") && r.value.verb.None?
                        && r.value.token == Null && r.value.httpsProxy == Null
    ensures r.Some? ==> r.value.data.Some? && r.value.data.value.JObject?
                        && r.value.data.value.fields.Keys == {"description", "public", "files"}
                        && r.value.data.value.fields["description"] == JStr(description)
                        && r.value.data.value.fields["public"] == JBool(public)
  {
    if (exists name :: name in files && files[name] == "") then None
    else
      var body := JObject(map["description" := JStr(description), "public" := JBool(public), "files" := FilesField(files)]);
      Some(ApiCall(Get(s, "GISTS_URL"), Some(body), Null, Null, None))
  }

  /** The body of create_gist submits exactly the files it was given. */
  lemma CreateGistSubmitsFiles(public: bool, description: string, files: map<string, string>, s: Settings)
    requires CreateGist(public, description, files, s).Some?
    ensures SubmittedFiles(CreateGist(public, description, files, s).value.data.value) == Some(files)
  {
    var fs := FilesField(files).fields;
    assert fs.Keys == files.Keys;
    assert (map name | name in fs :: fs[name].fields["content"].s) == files;
  }

  /** update_gist: a PATCH of `gist_url` whose body holds `files` exactly as
      given, and `description` exactly when a new description is given. */
  function UpdateGist(gistUrl: Value, fileChanges: Json, token: Value, httpsProxy: Value, newDescription: Option<string>)
    : (r: ApiCall)
    ensures r.url == gistUrl && r.verb == Some("PATCH") && r.token == token && r.httpsProxy == httpsProxy
    ensures r.data.Some? && r.data.value.JObject?
    ensures r.data.value.fields.Keys == if newDescription.Some? then {"files", "description"} else {"files"}
    ensures r.data.value.fields["files"] == fileChanges
    ensures newDescription.Some? ==> r.data.value.fields["description"] == JStr(newDescription.value)
  {
    var request := map["files" := fileChanges];
    var request := if newDescription.Some? then request["description" := JStr(newDescription.value)] else request;
    ApiCall(gistUrl, Some(JObject(request)), token, httpsProxy, Some("PATCH"))
  }

  // ---------------------------------------------------------------------
  // open_gist and insert_gist_embed

  function FileNameKey(f: GistFile): SortKey
  {
    SortKey(false, f.name)
  }

  /** `sorted(gist['files'].keys())`: the files in file name order. */
  function FilesByName(files: seq<GistFile>): (r: seq<GistFile>)
    ensures multiset(r) == multiset(files)
    ensures Sorted(r, FileNameKey)
  {
    SortBySorted(files, FileNameKey);
    SortBy(files, FileNameKey)
  }

  /** The media type of a file: its MIME type up to the first '/'. */
  function MediaType(f: GistFile): string
  {
    Partition(f.mediaType, '/').0
  }

  predicate Openable(f: GistFile)
  {
    MediaType(f) == "text" || MediaType(f) == "application"
  }

  function KeepOpenable(fs: seq<GistFile>): (r: seq<GistFile>)
    ensures forall f :: f in r <==> f in fs && Openable(f)
    ensures IsSubsequence(r, fs)
    ensures Sorted(fs, FileNameKey) ==> Sorted(r, FileNameKey)
    decreases |fs|
  {
    if fs == [] then []
    else
      var init := fs[..|fs| - 1];
      var last := fs[|fs| - 1];
      var r := KeepOpenable(init);
      assert fs == init + [last];
      if Openable(last) then
        assert (r + [last])[..|r|] == r;
        assert Sorted(fs, FileNameKey) ==> Sorted(r + [last], FileNameKey) by {
          if Sorted(fs, FileNameKey) {
            SortedSnoc(init, last, r, FileNameKey);
          }
        }
        r + [last]
      else r
  }

  /** Appending the last element of a sorted sequence to a sorted choice
      from the elements before it keeps the choice sorted. */
  lemma SortedSnoc<T>(init: seq<T>, last: T, r: seq<T>, key: T -> SortKey)
    requires Sorted(init + [last], key) && Sorted(r, key)
    requires forall x :: x in r ==> x in init
    ensures Sorted(r + [last], key)
  {
    var fs := init + [last];
    forall x | x in r ensures KeyLe(key(x), key(last)) {
      var j :| 0 <= j < |init| && init[j] == x;
      assert fs[j] == x && fs[|init|] == last;
    }
    var s := r + [last];
    forall i, j | 0 <= i < j < |s| ensures KeyLe(key(s[i]), key(s[j])) {
      if j == |r| {
        assert s[i] in r;
      } else {
        assert s[i] == r[i] && s[j] == r[j];
      }
    }
  }

  /** The files open_gist opens, in the order it opens them: every file whose
      media type is text or application, by file name. */
  function OpenedFiles(g: Gist): (r: seq<GistFile>)
    ensures forall f :: f in r <==> f in g.files && Openable(f)
    ensures IsSubsequence(r, FilesByName(g.files))
    ensures Sorted(r, FileNameKey)
  {
    var sorted := FilesByName(g.files);
    assert forall f :: f in sorted <==> f in g.files by {
      forall f ensures f in sorted <==> f in g.files {
        assert f in sorted <==> f in multiset(sorted);
        assert f in g.files <==> f in multiset(g.files);
      }
    }
    KeepOpenable(sorted)
  }

  /** open_gist as a whole: it opens a view for the first openable file and
      then titles it with gist_title, so when the title cannot be built
      (show_authors is set and the gist has no owner) it stops after that
      one view with the AttributeError; otherwise every openable file is
      opened. */
  function OpenGist(g: Gist, s: Settings): (r: (seq<GistFile>, Option<Error>))
    ensures r.1.Some? <==> OpenedFiles(g) != [] && Truthy(Get(s, "show_authors")) && Author(g, Owner).None?
    ensures r.1.None? ==> r.0 == OpenedFiles(g)
    ensures r.1.Some? ==> r.0 == OpenedFiles(g)[..1] && r.1.value == AttributeError
  {
    var fs := OpenedFiles(g);
    if fs != [] && GistTitle(g, s, Owner).Err? then
      assert fs[0] in g.files;
      (fs[..1], Some(GistTitle(g, s, Owner).error))
    else (fs, None)
  }

  /** Without show_authors the title never fails, so every openable file is
      opened. */
  lemma OpenGistWithoutAuthors(g: Gist, s: Settings)
    requires !Truthy(Get(s, "show_authors"))
    ensures OpenGist(g, s) == (OpenedFiles(g), None)
  {
  }

  /** The tag insert_gist_embed inserts for a raw URL. */
  function ScriptTag(rawUrl: string): string
  {
    "<script src=\"" + rawUrl + "\"></script>"
  }

  /** The raw URL can be read back from its tag. */
  lemma ScriptTagUrl(rawUrl: string)
    ensures var t := ScriptTag(rawUrl); |t| == |rawUrl| + 24 && t[13..|t| - 11] == rawUrl
  {
  }

  /** insert_gist_embed: one script tag per file, in file name order. */
  function EmbedScripts(g: Gist): (r: seq<string>)
    ensures |r| == |g.files|
    ensures forall i :: 0 <= i < |r| ==> r[i] == ScriptTag(FilesByName(g.files)[i].rawUrl)
  {
    var fs := FilesByName(g.files);
    seq(|fs|, i requires 0 <= i < |fs| => ScriptTag(fs[i].rawUrl))
  }

  // ---------------------------------------------------------------------
  // GistCommand: the file names of a new gist

  /** `"%s (%d)%s" % (namepart, num, extpart)`. */
  function NumberedFileName(filename: string, num: int): string
  {
    var parts := SplitExt(filename);
    parts.0 + " (" + IntText(num) + ")" + parts.1
  }

  /** `"%s %d" % (syntax_name, num)`. */
  function SyntaxFileName(syntaxName: string, num: int): string
  {
    syntaxName + " " + IntText(num)
  }

  /** Equal texts built around the same fixed parts have equal middles. */
  lemma MiddleEqual(p: string, q: string, a: string, b: string, r: string, t: string)
    requires p + q + a + r + t == p + q + b + r + t
    ensures a == b
  {
    var x, y := p + q + a + r + t, p + q + b + r + t;
    assert |x| == |p| + |q| + |a| + |r| + |t|;
    assert |y| == |p| + |q| + |b| + |r| + |t|;
    var k := |p| + |q|;
    assert forall m :: 0 <= m < |a| ==> x[k + m] == a[m];
    assert forall m :: 0 <= m < |b| ==> y[k + m] == b[m];
  }

  lemma NumberedFileNameInjective(filename: string, i: int, j: int)
    requires NumberedFileName(filename, i) == NumberedFileName(filename, j)
    ensures i == j
  {
    var parts := SplitExt(filename);
    MiddleEqual(parts.0, " (", IntText(i), IntText(j), ")", parts.1);
    IntTextInjective(i, j);
  }

  lemma SyntaxFileNameInjective(syntaxName: string, i: int, j: int)
    requires SyntaxFileName(syntaxName, i) == SyntaxFileName(syntaxName, j)
    ensures i == j
  {
    MiddleEqual(syntaxName, " ", IntText(i), IntText(j), "", "");
    IntTextInjective(i, j);
  }

  /** Different numbers give different numbered names. */
  lemma NumberedNamesDistinct(filename: string, n: nat)
    ensures forall i, j :: 1 <= i < j <= n ==> NumberedFileName(filename, i) != NumberedFileName(filename, j)
  {
    forall i, j | 1 <= i < j <= n
      ensures NumberedFileName(filename, i) != NumberedFileName(filename, j)
    {
      if NumberedFileName(filename, i) == NumberedFileName(filename, j) {
        NumberedFileNameInjective(filename, i, j);
      }
    }
  }

  /** Different numbers give different syntax names. */
  lemma SyntaxNamesDistinct(syntaxName: string, n: nat)
    ensures forall i, j :: 1 <= i < j <= n ==> SyntaxFileName(syntaxName, i) != SyntaxFileName(syntaxName, j)
  {
    forall i, j | 1 <= i < j <= n
      ensures SyntaxFileName(syntaxName, i) != SyntaxFileName(syntaxName, j)
    {
      if SyntaxFileName(syntaxName, i) == SyntaxFileName(syntaxName, j) {
        SyntaxFileNameInjective(syntaxName, i, j);
      }
    }
  }

  /** `stem (1)ext` ... `stem (n)ext`, pairwise different. */
  function NumberedNames(filename: string, n: nat): (r: seq<string>)
    ensures |r| == n && forall i :: 0 <= i < n ==> r[i] == NumberedFileName(filename, i + 1)
    ensures forall i, j :: 0 <= i < j < n ==> r[i] != r[j]
  {
    NumberedNamesDistinct(filename, n);
    seq(n, i requires 0 <= i < n => NumberedFileName(filename, i + 1))
  }

  /** `Syntax 1` ... `Syntax n`, pairwise different. */
  function SyntaxNames(syntaxName: string, n: nat): (r: seq<string>)
    ensures |r| == n && forall i :: 0 <= i < n ==> r[i] == SyntaxFileName(syntaxName, i + 1)
    ensures forall i, j :: 0 <= i < j < n ==> r[i] != r[j]
  {
    SyntaxNamesDistinct(syntaxName, n);
    seq(n, i requires 0 <= i < n => SyntaxFileName(syntaxName, i + 1))
  }

  /** The names of n > 1 regions, numbered from 1: `stem (i)ext` from the
      typed file name, or `Syntax i` from the view's syntax file when no name
      was typed (a missing syntax setting raises TypeError). The names are
      pairwise different. */
  function RegionNames(n: nat, filename: string, syntax: Option<string>): (r: Result<seq<string>>)
    ensures r.Err? <==> filename == "" && syntax.None?
    ensures r.Ok? ==> |r.value| == n && forall i, j :: 0 <= i < j < n ==> r.value[i] != r.value[j]
  {
    if filename != "" then Ok(NumberedNames(filename, n))
    else match syntax
      case None => Err(TypeError)
      case Some(path) => Ok(SyntaxNames(SplitExt(Basename(path)).0, n))
  }

  /** `dict(zip(names, texts))` for pairwise different names: one key per
      name, the i-th text under the i-th name. */
  function NameMap(names: seq<string>, texts: seq<string>): (r: map<string, string>)
    requires |names| == |texts|
    requires forall i, j :: 0 <= i < j < |names| ==> names[i] != names[j]
    ensures forall x :: x in r <==> x in names
    ensures |r| == |names|
    ensures forall i :: 0 <= i < |names| ==> r[names[i]] == texts[i]
    decreases |names|
  {
    if names == [] then map[]
    else
      var k := |names| - 1;
      var r := NameMap(names[..k], texts[..k]);
      NameMapStep(names, texts, r);
      r[names[k] := texts[k]]
  }

  /** Adding the last name to the map of the others keeps the three
      properties of NameMap. */
  lemma NameMapStep(names: seq<string>, texts: seq<string>, r: map<string, string>)
    requires |names| == |texts| && names != []
    requires forall i, j :: 0 <= i < j < |names| ==> names[i] != names[j]
    requires var k := |names| - 1;
             && (forall x :: x in r <==> x in names[..k])
             && |r| == k
             && forall i :: 0 <= i < k ==> r[names[..k][i]] == texts[..k][i]
    ensures var k := |names| - 1;
            var r2 := r[names[k] := texts[k]];
            && (forall x :: x in r2 <==> x in names)
            && |r2| == |names|
            && forall i :: 0 <= i < |names| ==> r2[names[i]] == texts[i]
  {
    var k := |names| - 1;
    var r2 := r[names[k] := texts[k]];
    assert names == names[..k] + [names[k]];
    assert names[k] !in names[..k];
    forall i | 0 <= i < |names| ensures r2[names[i]] == texts[i] {
      if i < k {
        assert names[..k][i] == names[i] && texts[..k][i] == texts[i];
      }
    }
  }

  /** The mapping on_gist_filename passes to create_gist: one region under
      the typed name; several regions under their generated names. */
  function GistData(regions: seq<string>, filename: string, syntax: Option<string>): (r: Result<map<string, string>>)
    requires regions != []
    ensures |regions| == 1 ==> r == Ok(map[filename := regions[0]])
    ensures r.Err? <==> |regions| > 1 && filename == "" && syntax.None?
    ensures r.Ok? ==> |r.value| == |regions|
    ensures r.Ok? && |regions| > 1 ==>
              var names := RegionNames(|regions|, filename, syntax).value;
              && (forall x :: x in r.value <==> x in names)
              && forall i :: 0 <= i < |regions| ==> r.value[names[i]] == regions[i]
  {
    if |regions| == 1 then Ok(map[filename := regions[0]])
    else match RegionNames(|regions|, filename, syntax)
      case Err(e) => Err(e)
      case Ok(names) =>
        Ok(NameMap(names, regions))
  }

  // ---------------------------------------------------------------------
  // GistListCommandBase

  /** How a truthy `include_users` value, or an `include_orgs` value other
      than True, is iterated: a list yields its items, a string its
      characters; numbers and booleans are not iterable. */
  function NamesOf(v: Value): (r: Result<seq<string>>)
    ensures r.Err? <==> !(v.List? || v.Str?)
    ensures v.List? ==> r == Ok(v.items)
    ensures v.Str? ==> r.Ok? && |r.value| == |v.s| && forall i :: 0 <= i < |v.s| ==> r.value[i] == [v.s[i]]
  {
    match v
    case List(items) => Ok(items)
    case Str(t) => Ok(seq(|t|, i requires 0 <= i < |t| => [t[i]]))
    case _ => Err(TypeError)
  }

  /** The state of a list command: its three fields, the quick panel on
      screen and the gist last handed to handle_gist. */
  datatype ListState = ListState(gists: seq<Gist>, orgs: seq<string>, users: seq<string>,
                                 panel: seq<PanelRow>, handled: Option<Gist>)

  const Star: string := "\U{2605} "

  /** The gists `run` lists, with their rows: the starred gists (rows
      prefixed with a star), preceded by the own gists unless `use_starred`. */
  function ListedGists(s: Settings, starred: seq<Gist>, own: seq<Gist>): Result<(seq<Gist>, seq<Label>)>
  {
    match GistHelpers.FilterSpec(starred, s, Star)
    case Err(e) => Err(e)
    case Ok((sg, sn)) =>
      if Truthy(Get(s, "use_starred")) then Ok((sg, sn))
      else match GistHelpers.FilterSpec(own, s, "")
        case Err(e) => Err(e)
        case Ok((og, on)) => Ok((og + sg, on + sn))
  }

  /** Every listed gist has files and its own row. */
  lemma ListedAligned(s: Settings, starred: seq<Gist>, own: seq<Gist>)
    requires ListedGists(s, starred, own).Ok?
    ensures |ListedGists(s, starred, own).value.0| == |ListedGists(s, starred, own).value.1|
    ensures forall g :: g in ListedGists(s, starred, own).value.0 ==> g.files != []
  {
    GistHelpers.FilterAligned(starred, s, Star);
    if !Truthy(Get(s, "use_starred")) {
      GistHelpers.FilterAligned(own, s, "");
    }
  }

  /** The `include_users` step of `run`: with a truthy setting the users are
      replaced and their rows put in front; otherwise nothing changes. */
  function UsersStep(st: ListState, rows: seq<PanelRow>, s: Settings): (r: Result<(ListState, seq<PanelRow>)>)
    ensures r.Ok? ==> r.value.0 == st.(users := r.value.0.users)
    ensures r.Ok? && !Truthy(Get(s, "include_users")) ==> r.value == (st, rows)
    ensures r.Ok? && Truthy(Get(s, "include_users")) ==> r.value.1 == LinkRows(r.value.0.users) + rows
  {
    var v := Get(s, "include_users");
    if !Truthy(v) then Ok((st, rows))
    else match NamesOf(v)
      case Err(e) => Err(e)
      case Ok(us) => Ok((st.(users := us), LinkRows(us) + rows))
  }

  /** The `include_orgs` step of `run`: True fetches the logins of the
      user's organisations, another truthy value is used as given. */
  function OrgsStep(st: ListState, rows: seq<PanelRow>, s: Settings, orgLogins: seq<string>): (r: Result<(ListState, seq<PanelRow>)>)
    ensures r.Ok? ==> r.value.0 == st.(orgs := r.value.0.orgs)
    ensures r.Ok? && !Truthy(Get(s, "include_orgs")) ==> r.value == (st, rows)
    ensures r.Ok? && Truthy(Get(s, "include_orgs")) ==> r.value.1 == LinkRows(r.value.0.orgs) + rows
  {
    var v := Get(s, "include_orgs");
    if !Truthy(v) then Ok((st, rows))
    else match (if v == Bool(true) then Ok(orgLogins) else NamesOf(v))
      case Err(e) => Err(e)
      case Ok(os) => Ok((st.(orgs := os), LinkRows(os) + rows))
  }

  /** `run`: the error it raises (if any) and the state it leaves, given the
      starred list, the own gist list and the organisation logins returned by
      the API. The gists and users assigned before an error keep their new
      value. The organisations do not: where the source stores a
      non-iterable `include_orgs` in `orgs` and then fails to iterate it,
      the model keeps the old organisations. */
  function RunSpec(st: ListState, s: Settings, starred: seq<Gist>, own: seq<Gist>, orgLogins: seq<string>)
    : (Option<Error>, ListState)
  {
    RunFrom(st, s, ListedGists(s, starred, own), orgLogins)
  }

  /** `run` once the gist lists are fetched and filtered. */
  function RunFrom(st: ListState, s: Settings, listed: Result<(seq<Gist>, seq<Label>)>, orgLogins: seq<string>)
    : (Option<Error>, ListState)
  {
    if listed.Err? then (Some(listed.error), st)
    else
      var st1 := st.(gists := listed.value.0);
      var u := UsersStep(st1, GistRows(listed.value.1), s);
      if u.Err? then (Some(u.error), st1)
      else
        var o := OrgsStep(u.value.0, u.value.1, s, orgLogins);
        if o.Err? then (Some(o.error), u.value.0)
        else (None, o.value.0.(panel := o.value.1))
  }

  /** The gists of every member of an organisation, in member order. */
  function Flatten(lists: seq<seq<Gist>>): seq<Gist>
  {
    if lists == [] then [] else Flatten(lists[..|lists| - 1]) + lists[|lists| - 1]
  }

  /** `on_gist_num`, given the member list and each member's gists (for an
      organisation) and the gists of the selected user. */
  function OnGistNumSpec(st: ListState, num: int, s: Settings, memberGists: seq<seq<Gist>>, userGists: seq<Gist>)
    : (Option<Error>, ListState)
  {
    match Dispatch(num, |st.orgs|, |st.users|)
    case Cancelled => (None, st)
    case PickOrg(_) =>
      var all := Flatten(memberGists);
      (match GistHelpers.FilterSpec(all, s, "")
       case Err(e) => (Some(e), st.(gists := all))
       case Ok((gs, ns)) => (None, st.(gists := gs, orgs := [], users := [], panel := GistRows(ns))))
    case PickUser(_) =>
      (match GistHelpers.FilterSpec(userGists, s, "")
       case Err(e) => (Some(e), st)
       case Ok((gs, ns)) => (None, st.(gists := gs, orgs := [], users := [], panel := GistRows(ns))))
    case PickGist(i) =>
      if i < |st.gists| then (None, st.(handled := Some(st.gists[i]))) else (Some(IndexError), st)
  }

  class ListCommand {
    var gists: seq<Gist>
    var orgs: seq<string>
    var users: seq<string>
    var panel: seq<PanelRow>
    var handled: Option<Gist>

    function State(): ListState
      reads this
    {
      ListState(gists, orgs, users, panel, handled)
    }

    /** The class attributes `gists = orgs = users = []`. */
    constructor ()
      ensures State() == ListState([], [], [], [], None)
    {
      gists, orgs, users, panel, handled := [], [], [], [], None;
    }

    /** run: filter the starred (and, unless `use_starred`, own) gists, put
        user and organisation rows in front, and show the panel. */
    method Run(s: Settings, starred: seq<Gist>, own: seq<Gist>, orgLogins: seq<string>) returns (err: Option<Error>)
      modifies this
      ensures (err, State()) == RunSpec(old(State()), s, starred, own, orgLogins)
    {
      var filtered := GistHelpers.GistsFilter(starred, s, Star);
      if filtered.Err? {
        return Some(filtered.error);
      }
      var filteredGists, filteredNames := filtered.value.0, filtered.value.1;
      if !Truthy(Get(s, "use_starred")) {
        var filteredOwn := GistHelpers.GistsFilter(own, s, "");
        if filteredOwn.Err? {
          return Some(filteredOwn.error);
        }
        filteredGists := filteredOwn.value.0 + filteredGists;
        filteredNames := filteredOwn.value.1 + filteredNames;
      }
      assert ListedGists(s, starred, own) == Ok((filteredGists, filteredNames));
      gists := filteredGists;
      var gistNames := GistRows(filteredNames);
      ghost var st1 := State();
      if Truthy(Get(s, "include_users")) {
        var us := NamesOf(Get(s, "include_users"));
        if us.Err? {
          assert UsersStep(st1, gistNames, s) == Err(us.error);
          return Some(us.error);
        }
        users := us.value;
        gistNames := LinkRows(users) + gistNames;
      }
      assert UsersStep(st1, GistRows(filteredNames), s) == Ok((State(), gistNames));
      ghost var st2, rows2 := State(), gistNames;
      if Truthy(Get(s, "include_orgs")) {
        if Get(s, "include_orgs") == Bool(true) {
          orgs := orgLogins;
        } else {
          var os := NamesOf(Get(s, "include_orgs"));
          if os.Err? {
            assert OrgsStep(st2, rows2, s, orgLogins) == Err(os.error);
            return Some(os.error);
          }
          orgs := os.value;
        }
        gistNames := LinkRows(orgs) + gistNames;
      }
      assert OrgsStep(st2, rows2, s, orgLogins) == Ok((State(), gistNames));
      panel := gistNames;
      return None;
    }

    /** on_gist_num: drill into an organisation or a user, or hand over a
        gist. */
    method OnGistNum(num: int, s: Settings, memberGists: seq<seq<Gist>>, userGists: seq<Gist>) returns (err: Option<Error>)
      modifies this
      ensures (err, State()) == OnGistNumSpec(old(State()), num, s, memberGists, userGists)
    {
      var offOrgs := |orgs|;
      var offUsers := offOrgs + |users|;
      if num < 0 {
        return None;
      } else if num < offOrgs {
        gists := [];
        var i := 0;
        while i < |memberGists|
          invariant i <= |memberGists|
          invariant gists == Flatten(memberGists[..i])
          invariant orgs == old(orgs) && users == old(users) && panel == old(panel) && handled == old(handled)
        {
          assert memberGists[..i + 1][..i] == memberGists[..i];
          gists := gists + memberGists[i];
          i := i + 1;
        }
        assert memberGists[..i] == memberGists;
        var filtered := GistHelpers.GistsFilter(gists, s, "");
        if filtered.Err? {
          return Some(filtered.error);
        }
        gists := filtered.value.0;
        orgs, users := [], [];
        panel := GistRows(filtered.value.1);
      } else if num < offUsers {
        var filtered := GistHelpers.GistsFilter(userGists, s, "");
        if filtered.Err? {
          return Some(filtered.error);
        }
        gists := filtered.value.0;
        orgs, users := [], [];
        panel := GistRows(filtered.value.1);
      } else {
        if num - offUsers >= |gists| {
          return Some(IndexError);
        }
        handled := Some(gists[num - offUsers]);
      }
      return None;
    }
  }

  /** The panel of a successful run from clean lists: organisation rows,
      user rows, gist rows. */
  lemma RunPanelShape(st: ListState, s: Settings, listed: Result<(seq<Gist>, seq<Label>)>, orgLogins: seq<string>)
    requires st.users == [] || Truthy(Get(s, "include_users"))
    requires st.orgs == [] || Truthy(Get(s, "include_orgs"))
    requires RunFrom(st, s, listed, orgLogins).0.None?
    ensures listed.Ok?
    ensures var st2 := RunFrom(st, s, listed, orgLogins).1;
            st2.gists == listed.value.0
            && st2.panel == LinkRows(st2.orgs) + LinkRows(st2.users) + GistRows(listed.value.1)
  {
    RunFromSteps(st, s, listed, orgLogins);
    var st1 := st.(gists := listed.value.0);
    var rows1 := GistRows(listed.value.1);
    UsersStepRows(st1, rows1, s);
    var u := UsersStep(st1, rows1, s).value;
    OrgsStepRows(u.0, u.1, s, orgLogins);
    var o := OrgsStep(u.0, u.1, s, orgLogins).value;
    assert o.0.users == u.0.users && o.0.gists == listed.value.0;
    assert o.1 == LinkRows(o.0.orgs) + (LinkRows(o.0.users) + rows1);
  }

  /** A run without error went through both steps without error. */
  lemma RunFromSteps(st: ListState, s: Settings, listed: Result<(seq<Gist>, seq<Label>)>, orgLogins: seq<string>)
    requires RunFrom(st, s, listed, orgLogins).0.None?
    ensures listed.Ok?
    ensures var u := UsersStep(st.(gists := listed.value.0), GistRows(listed.value.1), s);
            && u.Ok? && OrgsStep(u.value.0, u.value.1, s, orgLogins).Ok?
            && RunFrom(st, s, listed, orgLogins).1
               == OrgsStep(u.value.0, u.value.1, s, orgLogins).value.0.(panel := OrgsStep(u.value.0, u.value.1, s, orgLogins).value.1)
  {
  }

  /** The users step puts its link rows in front, when it starts from no
      users or its setting replaces them. */
  lemma UsersStepRows(st: ListState, rows: seq<PanelRow>, s: Settings)
    requires st.users == [] || Truthy(Get(s, "include_users"))
    requires UsersStep(st, rows, s).Ok?
    ensures UsersStep(st, rows, s).value.1 == LinkRows(UsersStep(st, rows, s).value.0.users) + rows
  {
    if !Truthy(Get(s, "include_users")) {
      assert LinkRows([]) + rows == rows;
    }
  }

  /** The organisations step puts its link rows in front, when it starts
      from no organisations or its setting replaces them. */
  lemma OrgsStepRows(st: ListState, rows: seq<PanelRow>, s: Settings, orgLogins: seq<string>)
    requires st.orgs == [] || Truthy(Get(s, "include_orgs"))
    requires OrgsStep(st, rows, s, orgLogins).Ok?
    ensures OrgsStep(st, rows, s, orgLogins).value.1 == LinkRows(OrgsStep(st, rows, s, orgLogins).value.0.orgs) + rows
  {
    if !Truthy(Get(s, "include_orgs")) {
      assert LinkRows([]) + rows == rows;
    }
  }

  /** After a successful run that starts from empty organisation and user
      lists (or whose settings replace them), the panel is the organisation
      rows, then the user rows, then one row per listed gist, so each index
      selects the entry shown at that position. */
  lemma RunPanelAligned(st: ListState, s: Settings, listed: Result<(seq<Gist>, seq<Label>)>, orgLogins: seq<string>, num: int)
    requires st.users == [] || Truthy(Get(s, "include_users"))
    requires st.orgs == [] || Truthy(Get(s, "include_orgs"))
    requires listed.Ok? ==> |listed.value.0| == |listed.value.1|
    requires RunFrom(st, s, listed, orgLogins).0.None?
    requires 0 <= num < |RunFrom(st, s, listed, orgLogins).1.panel|
    ensures listed.Ok?
    ensures var st2 := RunFrom(st, s, listed, orgLogins).1;
            st2.gists == listed.value.0
            && |st2.panel| == |st2.orgs| + |st2.users| + |st2.gists|
            && match Dispatch(num, |st2.orgs|, |st2.users|)
               case PickOrg(i) => st2.panel[num] == Row(Label("> " + st2.orgs[i], None))
               case PickUser(i) => st2.panel[num] == Row(Label("> " + st2.users[i], None))
               case PickGist(i) => i < |st2.gists| && st2.panel[num] == Row(listed.value.1[i])
               case Cancelled => false
  {
    RunPanelShape(st, s, listed, orgLogins);
    var st2 := RunFrom(st, s, listed, orgLogins).1;
    var os, us, gs := LinkRows(st2.orgs), LinkRows(st2.users), GistRows(listed.value.1);
    assert st2.panel == os + us + gs;
    var off := |st2.orgs| + |st2.users|;
    if num >= off {
      assert st2.panel[num] == gs[num - off];
    } else if num >= |st2.orgs| {
      assert st2.panel[num] == us[num - |st2.orgs|];
    } else {
      assert st2.panel[num] == os[num];
    }
  }

  /** A user list left over from an earlier run is not shown when
      `include_users` has since been turned off, yet it still shifts the
      selection: the first gist row is taken for a user. */
  lemma StaleUsersShiftSelection(g: Gist)
    requires g.files != [] && g.description == Some("d")
    ensures var s := map["prefer_filename" := Bool(false), "use_starred" := Bool(true)];
            var st := ListState([], [], ["someone"], [], None);
            var st2 := RunSpec(st, s, [g], [], []).1;
            && st2.panel == [Row(Label(Star + "d", None))]
            && Dispatch(0, |st2.orgs|, |st2.users|) == PickUser(0)
  {
    var s := map["prefer_filename" := Bool(false), "use_starred" := Bool(true)];
    StaleUsersListed(g, s);
    StaleUsersSettings(s);
  }

  /** The one starred gist of StaleUsersShiftSelection is listed under its
      description, with the star. */
  lemma StaleUsersListed(g: Gist, s: Settings)
    requires g.files != [] && g.description == Some("d")
    requires s == map["prefer_filename" := Bool(false), "use_starred" := Bool(true)]
    ensures ListedGists(s, [g], []) == Ok(([g], [Label(Star + "d", None)]))
  {
    StaleUsersSettings(s);
    StaleUsersRow(g, s);
    var row := Label(Star + "d", None);
    calc {
      GistHelpers.FilterSpec([g], s, Star);
      { assert [g][..0] == []; }
      GistHelpers.FilterStep(Ok(([], [])), g, s, Star);
      Ok(([] + [g], [] + [row]));
      { assert [] + [g] == [g] && [] + [row] == [row]; }
      Ok(([g], [row]));
    }
  }

  lemma StaleUsersSettings(s: Settings)
    requires s == map["prefer_filename" := Bool(false), "use_starred" := Bool(true)]
    ensures Get(s, "prefer_filename") == Bool(false) && Truthy(Get(s, "use_starred"))
    ensures NonEmptyText(s, "gist_prefix").None? && NonEmptyText(s, "gist_tag").None?
    ensures !Truthy(Get(s, "show_authors"))
    ensures !Truthy(Get(s, "include_users")) && !Truthy(Get(s, "include_orgs"))
  {
    assert "gist_prefix" != "use_starred" by {
      assert "gist_prefix"[0] != "use_starred"[0];
    }
  }

  lemma StaleUsersRow(g: Gist, s: Settings)
    requires g.files != [] && g.description == Some("d")
    requires Get(s, "prefer_filename") == Bool(false) && !Truthy(Get(s, "show_authors"))
    requires NonEmptyText(s, "gist_prefix").None? && NonEmptyText(s, "gist_tag").None?
    ensures KeepGist(g, s, Star, Owner) == Ok(Some(Label(Star + "d", None)))
  {
    assert UsesDescription(g, s);
    assert GistTitle(g, s, Owner) == Ok(Label("d", None));
  }

  /** Drilling into an organisation or a user clears both lists, so the new
      panel is gist rows only, one per listed gist. */
  lemma DrillClearsLinks(st: ListState, num: int, s: Settings, memberGists: seq<seq<Gist>>, userGists: seq<Gist>)
    requires 0 <= num < |st.orgs| + |st.users|
    requires OnGistNumSpec(st, num, s, memberGists, userGists).0.None?
    ensures var st2 := OnGistNumSpec(st, num, s, memberGists, userGists).1;
            st2.orgs == [] && st2.users == [] && |st2.panel| == |st2.gists|
            && forall i :: 0 <= i < |st2.gists| ==> st2.panel[i].Row? && st2.gists[i].files != []
  {
    if num < |st.orgs| {
      GistHelpers.FilterAligned(Flatten(memberGists), s, "");
    } else {
      GistHelpers.FilterAligned(userGists, s, "");
    }
  }

  // ---------------------------------------------------------------------
  // GistListener.on_pre_save

  /** The update the listener starts on a thread: update_gist(gist_url,
      {gist_filename: {'content': text}}, token, https_proxy). */
  datatype SaveUpdate = SaveUpdate(gistUrl: Value, filename: Value, content: string, token: Value, httpsProxy: Value)

  /** The request a save update sends when the view's gist file name is text. */
  function SaveRequest(u: SaveUpdate): (r: Option<ApiCall>)
    ensures u.filename.Str? <==> r.Some?
    ensures r.Some? ==> r.value == UpdateGist(u.gistUrl, JObject(map[u.filename.s := JObject(map["content" := JStr(u.content)])]),
                                              u.token, u.httpsProxy, None)
  {
    if u.filename.Str? then
      Some(UpdateGist(u.gistUrl, JObject(map[u.filename.s := JObject(map["content" := JStr(u.content)])]), u.token, u.httpsProxy, None))
    else None
  }

  /** on_pre_save on view settings `m`: the settings after it and the update
      it starts, if any. */
  function PreSaveSpec(m: Settings, s: Settings, text: string): (Settings, Option<SaveUpdate>)
  {
    if Get(m, "gist_filename") == Null || !Truthy(Get(s, "update_on_save")) then (m, None)
    else if !Truthy(Get(m, "do-update")) then (m["do-update" := Bool(true)], None)
    else (m, Some(SaveUpdate(Get(m, "gist_url"), Get(m, "gist_filename"), text, Get(s, "token"), Get(s, "https_proxy"))))
  }

  method OnPreSave(view: View, s: Settings, text: string) returns (update: Option<SaveUpdate>)
    modifies view
    ensures (view.settings, update) == PreSaveSpec(old(view.settings), s, text)
    ensures view.fileName == old(view.fileName) && view.name == old(view.name) && view.status == old(view.status)
  {
    if Get(view.settings, "gist_filename") != Null {
      if Truthy(Get(s, "update_on_save")) {
        if !Truthy(Get(view.settings, "do-update")) {
          view.settings := view.settings["do-update" := Bool(true)];
          return None;
        }
        return Some(SaveUpdate(Get(view.settings, "gist_url"), Get(view.settings, "gist_filename"), text,
                               Get(s, "token"), Get(s, "https_proxy")));
      }
    }
    return None;
  }

  /** A view open_gist prepares for update-on-save (linked, `do-update`
      False) ignores the save open_gist itself makes and sends the next save
      as an update of that file of the gist. */
  lemma OpenedViewUpdatesOnNextSave(m: Settings, g: Gist, filename: string, s: Settings, text0: string, text1: string)
    requires Truthy(Get(s, "update_on_save"))
    ensures var m0 := GistHelpers.Linked(m, g, filename)["do-update" := Bool(false)];
            var (m1, first) := PreSaveSpec(m0, s, text0);
            var (m2, second) := PreSaveSpec(m1, s, text1);
            && first.None? && m2 == m1
            && second == Some(SaveUpdate(Str(g.url), Str(filename), text1, Get(s, "token"), Get(s, "https_proxy")))
            && SaveRequest(second.value).value.data.value.fields["files"]
                 == JObject(map[filename := JObject(map["content" := JStr(text1)])])
  {
  }
}
