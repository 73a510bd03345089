/** gist.py, the single-file revision of the plugin: the URL globals that
    initialize_globals recomputes from the settings, the starred-list URL,
    the HTTP error message, the older gists_filter that never drops a gist
    with files, and the list command's panel. */
module GistLegacy {
  import opened Common
  import opened Text
  import opened Decimal
  import opened Naming
  import Gist80

  // ---------------------------------------------------------------------
  // initialize_globals

  /** The four endpoint globals. */
  datatype Urls = Urls(gists: string, userGists: string, orgs: string, orgMembers: string)

  const PublicUrls: Urls := Urls("https://api.github.com/gists", "https://api.github.com/users/%s/gists",
                                 "https://api.github.com/user/orgs", "https://api.github.com/orgs/%s/members")

  const EnterpriseSuffix: string := "/api/v3/gists"

  /** initialize_globals as a function of the settings: the error it raises,
      the URL globals it leaves and the settings after it. The URLs are reset
      to the public ones first; `enterprise` replaces the gists URL by the
      `url` setting plus `/api/v3/gists` (a falsy `url` raises
      MissingCredentials); a truthy `max_gists` of at most 100 appends
      `?per_page=N` to the gists and user-gists URLs, a larger one is written
      back as 100 and appends nothing. */
  function InitSpec(m: Settings): (Option<Error>, Urls, Settings)
  {
    var enterprise :=
      if !Truthy(Get(m, "enterprise")) then Ok(PublicUrls)
      else if !Truthy(Get(m, "url")) then Err(MissingCredentials)
      else if !Get(m, "url").Str? then Err(TypeError)
      else Ok(PublicUrls.(gists := Get(m, "url").s + EnterpriseSuffix));
    match enterprise
    case Err(e) => (Some(e), PublicUrls.(gists := ""), m)
    case Ok(urls) =>
      var v := Get(m, "max_gists");
      if !Truthy(v) then (None, urls, m)
      else match AsInt(v)
        case None => (Some(TypeError), urls, m)
        case Some(n) =>
          if n <= 100 then
            (None, urls.(gists := urls.gists + Gist80.PerPage(n), userGists := urls.userGists + Gist80.PerPage(n)), m)
          else (None, urls, m["max_gists" := Int(100)])
  }

  /** The module globals of gist.py that initialize_globals assigns. */
  class Globals {
    var gistsUrl: string
    var userGistsUrl: string
    var orgsUrl: string
    var orgMembersUrl: string

    function Current(): Urls
      reads this
    {
      Urls(gistsUrl, userGistsUrl, orgsUrl, orgMembersUrl)
    }

    /** The URL globals as initialize_globals first assigns them. */
    constructor ()
      ensures Current() == PublicUrls
    {
      gistsUrl, userGistsUrl := PublicUrls.gists, PublicUrls.userGists;
      orgsUrl, orgMembersUrl := PublicUrls.orgs, PublicUrls.orgMembers;
    }

    method InitializeGlobals(store: SettingsStore) returns (err: Option<Error>)
      modifies this, store
      ensures (err, Current(), store.values) == InitSpec(old(store.values))
    {
      gistsUrl := "https://api.github.com/gists";
      userGistsUrl := "https://api.github.com/users/%s/gists";
      orgsUrl := "https://api.github.com/user/orgs";
      orgMembersUrl := "https://api.github.com/orgs/%s/members";
      if Truthy(Get(store.values, "enterprise")) {
        var url := Get(store.values, "url");
        if !Truthy(url) {
          gistsUrl := "";
          return Some(MissingCredentials);
        }
        if !url.Str? {
          gistsUrl := "";
          return Some(TypeError);
        }
        gistsUrl := url.s + EnterpriseSuffix;
      }
      var maxGists := Get(store.values, "max_gists");
      if Truthy(maxGists) {
        var n := AsInt(maxGists);
        if n.None? {
          return Some(TypeError);
        }
        if n.value <= 100 {
          var maxArgs := Gist80.PerPage(n.value);
          gistsUrl := gistsUrl + maxArgs;
          userGistsUrl := userGistsUrl + maxArgs;
        } else {
          store.Set("max_gists", Int(100));
        }
      }
      return None;
    }
  }

  /** The URLs after a successful initialize_globals: only the gists URL
      depends on `enterprise`, only the gists and user-gists URLs carry the
      page size, and the organisation URLs are always the public ones. */
  lemma InitUrls(m: Settings)
    requires InitSpec(m).0.None?
    ensures var urls := InitSpec(m).1;
            var base := if Truthy(Get(m, "enterprise")) then Get(m, "url").s + EnterpriseSuffix else PublicUrls.gists;
            var v := Get(m, "max_gists");
            var suffix := if Truthy(v) && AsInt(v).value <= 100 then Gist80.PerPage(AsInt(v).value) else "";
            && urls.gists == base + suffix
            && urls.userGists == PublicUrls.userGists + suffix
            && urls.orgs == PublicUrls.orgs && urls.orgMembers == PublicUrls.orgMembers
  {
  }

  /** A `max_gists` above 100 is clamped without a page size in the URLs;
      only the next initialisation, which reads the clamped 100, appends
      `?per_page=100`, and from then on the result no longer changes. */
  lemma InitAfterClamp(m: Settings)
    requires InitSpec(m).0.None?
    requires AsInt(Get(m, "max_gists")).Some? && AsInt(Get(m, "max_gists")).value > 100
    ensures var (_, urls1, m1) := InitSpec(m);
            var (err2, urls2, m2) := InitSpec(m1);
            && err2.None? && m2 == m1
            && urls2 == urls1.(gists := urls1.gists + "?per_page=100", userGists := urls1.userGists + "?per_page=100")
            && InitSpec(m2) == InitSpec(m1)
  {
    var m1 := InitSpec(m).2;
    assert Get(m1, "max_gists") == Int(100);
    assert Get(m1, "enterprise") == Get(m, "enterprise") && Get(m1, "url") == Get(m, "url");
    assert IntText(100) == "100";
  }

  // ---------------------------------------------------------------------
  // The starred URL of GistListCommandBase.run

  const Starred: string := "/starred"

  /** `'/starred'` inserted before the first '?' of the gists URL, keeping
      the query. */
  function StarredUrl(gistsUrl: string): (r: string)
    ensures '?' !in gistsUrl ==> r == gistsUrl + Starred
    ensures '?' in gistsUrl ==>
              var k := IndexOf(gistsUrl, '?').value;
              r == gistsUrl[..k] + Starred + gistsUrl[k..]
  {
    var parted := Partition(gistsUrl, '?');
    if parted.1 then
      var k := IndexOf(gistsUrl, '?').value;
      assert gistsUrl[k..] == "?" + gistsUrl[k + 1..];
      parted.0 + Starred + "?" + parted.2
    else parted.0 + Starred + parted.2
  }

  /** The starred list is fetched with the same page size as the gists list. */
  lemma StarredKeepsPageSize(base: string, n: int)
    requires '?' !in base
    ensures StarredUrl(base + Gist80.PerPage(n)) == base + Starred + Gist80.PerPage(n)
  {
    var u := base + Gist80.PerPage(n);
    assert u[|base|] == '?';
    var k := IndexOf(u, '?').value;
    assert forall j :: 0 <= j < |base| ==> u[j] == base[j];
    assert u[..k + 1][k] == '?';
    assert k == |base|;
    assert u[..k] == base && u[k..] == Gist80.PerPage(n);
  }

  // ---------------------------------------------------------------------
  // The SimpleHTTPError message of catch_errors

  /** `"Gist: GitHub returned error %d"`, followed by `": " + message` when
      the body decodes to a JSON object whose `message` is truthy. A body that
      does not decode adds nothing; a body that decodes to a non-object, or a
      truthy non-text message, makes the handler itself raise. */
  function HttpErrorMessage(code: int, response: Body): (r: Result<string>)
    ensures response.Unparsable? ==> r == Ok("Gist: GitHub returned error " + IntText(code))
    ensures response.Parsed? && !response.json.JObject? ==> r == Err(AttributeError)
    ensures response.Parsed? && response.json.JObject? ==>
              var fs := response.json.fields;
              if "message" !in fs || !JsonTruthy(fs["message"]) then r == Ok("Gist: GitHub returned error " + IntText(code))
              else if fs["message"].JStr? then r == Ok("Gist: GitHub returned error " + IntText(code) + ": " + fs["message"].s)
              else r == Err(TypeError)
  {
    var msg := "Gist: GitHub returned error " + IntText(code);
    match response
    case Unparsable => Ok(msg)
    case Parsed(j) =>
      if !j.JObject? then Err(AttributeError)
      else if "message" !in j.fields || !JsonTruthy(j.fields["message"]) then Ok(msg)
      else if j.fields["message"].JStr? then Ok(msg + ": " + j.fields["message"].s)
      else Err(TypeError)
  }

  /** The message always opens with the status code; a message without a
      JSON `message` part is exactly that opening. */
  lemma HttpErrorMessageOpening(code: int, response: Body)
    requires HttpErrorMessage(code, response).Ok?
    ensures StartsWith(HttpErrorMessage(code, response).value, "Gist: GitHub returned error " + IntText(code))
  {
    var opening := "Gist: GitHub returned error " + IntText(code);
    var r := HttpErrorMessage(code, response).value;
    if r != opening {
      var m := response.json.fields["message"].s;
      assert r == opening + (": " + m);
    }
  }

  // ---------------------------------------------------------------------
  // gists_filter (older semantics)

  /** The older rename: a matching `gist_prefix` is stripped and the tag is
      then not looked at; otherwise a `gist_tag` token, when found, is cut
      out; a title that matches neither is kept as it is. */
  function LegacyRename(title: string, prefix: Option<string>, tag: Option<string>): (r: string)
    ensures prefix.Some? && StartsWith(title, prefix.value) ==> title == prefix.value + r
    ensures !(prefix.Some? && StartsWith(title, prefix.value)) ==>
              r == (if tag.Some? && RemoveTag(title, tag.value).Some? then RemoveTag(title, tag.value).value else title)
  {
    if prefix.Some? && StartsWith(title, prefix.value) then StripPrefix(title, prefix).value
    else match tag
      case None => title
      case Some(t) =>
        match RemoveTag(title, t)
        case None => title
        case Some(cut) => cut
  }

  /** What the older gists_filter does with one gist: a gist without files is
      skipped before its title is computed; any other gist is kept, under its
      renamed title. */
  function KeepGist(g: Gist, s: Settings): (r: Result<Option<Label>>)
    ensures g.files == [] ==> r == Ok(None)
    ensures g.files != [] ==> (r.Err? <==> GistTitle(g, s, User).Err?)
    ensures r.Ok? && g.files != [] ==>
              var name := GistTitle(g, s, User).value;
              r.value == Some(Label(LegacyRename(name.title, NonEmptyText(s, "gist_prefix"), NonEmptyText(s, "gist_tag")), name.second))
  {
    if g.files == [] then Ok(None)
    else match GistTitle(g, s, User)
      case Err(e) => Err(e)
      case Ok(name) =>
        Ok(Some(Label(LegacyRename(name.title, NonEmptyText(s, "gist_prefix"), NonEmptyText(s, "gist_tag")), name.second)))
  }

  function FilterStep(acc: Result<(seq<Gist>, seq<Label>)>, g: Gist, s: Settings): Result<(seq<Gist>, seq<Label>)>
  {
    match acc
    case Err(e) => Err(e)
    case Ok((gs, ns)) =>
      match KeepGist(g, s)
      case Err(e) => Err(e)
      case Ok(None) => Ok((gs, ns))
      case Ok(Some(n)) => Ok((gs + [g], ns + [n]))
  }

  /** The older gists_filter on `all`, processed in order. */
  function FilterSpec(all: seq<Gist>, s: Settings): (r: Result<(seq<Gist>, seq<Label>)>)
    ensures r.Ok? ==> |r.value.0| == |r.value.1| <= |all|
  {
    if all == [] then Ok(([], []))
    else FilterStep(FilterSpec(all[..|all| - 1], s), all[|all| - 1], s)
  }

  lemma {:induction false} FilterSpecErrSticky(all: seq<Gist>, k: nat, s: Settings)
    requires k <= |all| && FilterSpec(all[..k], s).Err?
    ensures FilterSpec(all, s) == FilterSpec(all[..k], s)
    decreases |all| - k
  {
    if k < |all| {
      assert all[..k + 1][..k] == all[..k];
      FilterSpecErrSticky(all, k + 1, s);
    } else {
      assert all[..k] == all;
    }
  }

  /** gists_filter: a loop that skips gists without files and appends every
      other gist and its renamed title. */
  method GistsFilter(allGists: seq<Gist>, s: Settings) returns (r: Result<(seq<Gist>, seq<Label>)>)
    ensures r == FilterSpec(allGists, s)
  {
    var prefix := NonEmptyText(s, "gist_prefix");
    var tag := NonEmptyText(s, "gist_tag");
    var gists: seq<Gist> := [];
    var names: seq<Label> := [];
    var i := 0;
    while i < |allGists|
      invariant i <= |allGists|
      invariant FilterSpec(allGists[..i], s) == Ok((gists, names))
    {
      var g := allGists[i];
      assert allGists[..i + 1][..i] == allGists[..i];
      assert FilterSpec(allGists[..i + 1], s) == FilterStep(Ok((gists, names)), g, s);
      i := i + 1;
      if g.files == [] {
        continue;
      }
      var name := GistTitle(g, s, User);
      if name.Err? {
        FilterSpecErrSticky(allGists, i, s);
        return Err(name.error);
      }
      var title := name.value.title;
      if prefix.Some? && StartsWith(title, prefix.value) {
        title := title[|prefix.value|..];
      } else if tag.Some? {
        var found := RemoveTag(title, tag.value);
        if found.Some? {
          title := found.value;
        }
      }
      assert title == LegacyRename(name.value.title, prefix, tag);
      gists := gists + [g];
      names := names + [Label(title, name.value.second)];
    }
    assert allGists[..i] == allGists;
    return Ok((gists, names));
  }

  /** The gists of `all` that have files, in order. */
  function WithFiles(all: seq<Gist>): (r: seq<Gist>)
    ensures forall g :: g in r <==> g in all && g.files != []
  {
    if all == [] then []
    else
      var init := WithFiles(all[..|all| - 1]);
      var last := all[|all| - 1];
      assert all == all[..|all| - 1] + [last];
      if last.files != [] then init + [last] else init
  }

  /** The older filter never drops a gist that has files: prefix and tag only
      rename. */
  lemma {:induction false} FilterKeepsAllWithFiles(all: seq<Gist>, s: Settings)
    requires FilterSpec(all, s).Ok?
    ensures FilterSpec(all, s).value.0 == WithFiles(all)
  {
    if all != [] {
      var init := all[..|all| - 1];
      assert FilterSpec(init, s).Ok?;
      FilterKeepsAllWithFiles(init, s);
    }
  }

  /** Each returned row is the renamed title of the gist at the same position. */
  lemma {:induction false} FilterAligned(all: seq<Gist>, s: Settings)
    requires FilterSpec(all, s).Ok?
    ensures var (gs, ns) := FilterSpec(all, s).value;
            forall i :: 0 <= i < |gs| ==> gs[i].files != [] && KeepGist(gs[i], s) == Ok(Some(ns[i]))
  {
    if all != [] {
      FilterAligned(all[..|all| - 1], s);
    }
  }

  /** The filter raises exactly when the title of some gist with files
      raises. */
  lemma {:induction false} FilterError(all: seq<Gist>, s: Settings)
    ensures FilterSpec(all, s).Err? <==> exists i :: 0 <= i < |all| && all[i].files != [] && GistTitle(all[i], s, User).Err?
  {
    if all != [] {
      var init := all[..|all| - 1];
      FilterError(init, s);
      assert forall j :: 0 <= j < |init| ==> init[j] == all[j];
    }
  }

  // ---------------------------------------------------------------------
  // GistListCommandBase.run

  /** The state of a list command. */
  datatype ListState = ListState(gists: seq<Gist>, orgs: seq<string>, users: seq<string>, panel: seq<PanelRow>)

  /** User and organisation rows are plain strings in this revision. */
  function PlainLinkRows(names: seq<string>): (r: seq<PanelRow>)
    ensures |r| == |names|
    ensures forall i :: 0 <= i < |names| ==> r[i] == Plain("> " + names[i])
  {
    seq(|names|, i requires 0 <= i < |names| => Plain("> " + names[i]))
  }

  /** Starred rows: the star and the title, without the author. */
  function StarredRows(names: seq<Label>): (r: seq<PanelRow>)
    ensures |r| == |names|
    ensures forall i :: 0 <= i < |names| ==> r[i] == Row(Label(Gist80.Star + names[i].title, None))
  {
    seq(|names|, i requires 0 <= i < |names| => Row(Label(Gist80.Star + names[i].title, None)))
  }

  /** The gists `run` lists and their rows: the own gists, then the starred
      ones. */
  function ListedGists(s: Settings, own: seq<Gist>, starred: seq<Gist>): Result<(seq<Gist>, seq<PanelRow>)>
  {
    match FilterSpec(own, s)
    case Err(e) => Err(e)
    case Ok((og, on)) =>
      match FilterSpec(starred, s)
      case Err(e) => Err(e)
      case Ok((sg, sn)) => Ok((og + sg, GistRows(on) + StarredRows(sn)))
  }

  /** The `include_orgs` test of this revision is `== True`, which the
      number 1 also passes. */
  predicate FetchesOrgs(v: Value)
  {
    v == Bool(true) || v == Int(1)
  }

  function UsersStep(st: ListState, rows: seq<PanelRow>, s: Settings): (r: Result<(ListState, seq<PanelRow>)>)
    ensures r.Ok? ==> r.value.0 == st.(users := r.value.0.users)
    ensures r.Ok? && !Truthy(Get(s, "include_users")) ==> r.value == (st, rows)
    ensures r.Ok? && Truthy(Get(s, "include_users")) ==> r.value.1 == PlainLinkRows(r.value.0.users) + rows
  {
    var v := Get(s, "include_users");
    if !Truthy(v) then Ok((st, rows))
    else match Gist80.NamesOf(v)
      case Err(e) => Err(e)
      case Ok(us) => Ok((st.(users := us), PlainLinkRows(us) + rows))
  }

  function OrgsStep(st: ListState, rows: seq<PanelRow>, s: Settings, orgLogins: seq<string>): (r: Result<(ListState, seq<PanelRow>)>)
    ensures r.Ok? ==> r.value.0 == st.(orgs := r.value.0.orgs)
    ensures r.Ok? && !Truthy(Get(s, "include_orgs")) ==> r.value == (st, rows)
    ensures r.Ok? && Truthy(Get(s, "include_orgs")) ==> r.value.1 == PlainLinkRows(r.value.0.orgs) + rows
  {
    var v := Get(s, "include_orgs");
    if !Truthy(v) then Ok((st, rows))
    else match (if FetchesOrgs(v) then Ok(orgLogins) else Gist80.NamesOf(v))
      case Err(e) => Err(e)
      case Ok(os) => Ok((st.(orgs := os), PlainLinkRows(os) + rows))
  }

  /** `run` after initialize_globals, once the two lists are fetched and
      filtered. As in Gist80.RunFrom, a non-iterable `include_orgs` leaves
      the old organisations, where the source has already stored the value. */
  function RunFrom(st: ListState, s: Settings, listed: Result<(seq<Gist>, seq<PanelRow>)>, orgLogins: seq<string>)
    : (Option<Error>, ListState)
  {
    if listed.Err? then (Some(listed.error), st)
    else
      var st1 := st.(gists := listed.value.0);
      var u := UsersStep(st1, listed.value.1, s);
      if u.Err? then (Some(u.error), st1)
      else
        var o := OrgsStep(u.value.0, u.value.1, s, orgLogins);
        if o.Err? then (Some(o.error), u.value.0)
        else (None, o.value.0.(panel := o.value.1))
  }

  class ListCommand {
    var gists: seq<Gist>
    var orgs: seq<string>
    var users: seq<string>
    var panel: seq<PanelRow>

    function State(): ListState
      reads this
    {
      ListState(gists, orgs, users, panel)
    }

    constructor ()
      ensures State() == ListState([], [], [], [])
    {
      gists, orgs, users, panel := [], [], [], [];
    }

    /** run: initialise the globals, fetch the own list from GISTS_URL and
        the starred list from its starred URL, and build the panel. The
        starred URL is derived and requested only once the own list has
        been filtered; the URL requested is returned. */
    method Run(store: SettingsStore, globals: Globals, own: seq<Gist>, starred: seq<Gist>, orgLogins: seq<string>)
      returns (err: Option<Error>, starredUrl: Option<string>)
      modifies this, store, globals
      ensures (globals.Current(), store.values) == (InitSpec(old(store.values)).1, InitSpec(old(store.values)).2)
      ensures InitSpec(old(store.values)).0.Some? ==>
                err == InitSpec(old(store.values)).0 && starredUrl.None? && State() == old(State())
      ensures starredUrl.Some? <==> InitSpec(old(store.values)).0.None? && FilterSpec(own, store.values).Ok?
      ensures starredUrl.Some? ==> starredUrl.value == StarredUrl(globals.gistsUrl)
      ensures InitSpec(old(store.values)).0.None? ==>
                (err, State()) == RunFrom(old(State()), store.values, ListedGists(store.values, own, starred), orgLogins)
    {
      var initErr := globals.InitializeGlobals(store);
      if initErr.Some? {
        return initErr, None;
      }
      var s := store.values;
      var filtered := GistsFilter(own, s);
      if filtered.Err? {
        return Some(filtered.error), None;
      }
      starredUrl := Some(StarredUrl(globals.gistsUrl));
      var filteredStars := GistsFilter(starred, s);
      if filteredStars.Err? {
        return Some(filteredStars.error), starredUrl;
      }
      assert ListedGists(s, own, starred)
          == Ok((filtered.value.0 + filteredStars.value.0, GistRows(filtered.value.1) + StarredRows(filteredStars.value.1)));
      gists := filtered.value.0 + filteredStars.value.0;
      var gistNames := GistRows(filtered.value.1) + StarredRows(filteredStars.value.1);
      ghost var st1 := State();
      ghost var rows1 := gistNames;
      if Truthy(Get(s, "include_users")) {
        var us := Gist80.NamesOf(Get(s, "include_users"));
        if us.Err? {
          assert UsersStep(st1, rows1, s) == Err(us.error);
          return Some(us.error), starredUrl;
        }
        users := us.value;
        gistNames := PlainLinkRows(users) + gistNames;
      }
      assert UsersStep(st1, rows1, s) == Ok((State(), gistNames));
      ghost var st2, rows2 := State(), gistNames;
      if Truthy(Get(s, "include_orgs")) {
        if FetchesOrgs(Get(s, "include_orgs")) {
          orgs := orgLogins;
        } else {
          var os := Gist80.NamesOf(Get(s, "include_orgs"));
          if os.Err? {
            assert OrgsStep(st2, rows2, s, orgLogins) == Err(os.error);
            return Some(os.error), starredUrl;
          }
          orgs := os.value;
        }
        gistNames := PlainLinkRows(orgs) + gistNames;
      }
      assert OrgsStep(st2, rows2, s, orgLogins) == Ok((State(), gistNames));
      panel := gistNames;
      return None, starredUrl;
    }
  }

  /** The panel of a successful run from clean lists: organisation rows, user
      rows, the own rows, then the starred rows. */
  lemma RunPanelShape(st: ListState, s: Settings, listed: Result<(seq<Gist>, seq<PanelRow>)>, orgLogins: seq<string>)
    requires st.users == [] || Truthy(Get(s, "include_users"))
    requires st.orgs == [] || Truthy(Get(s, "include_orgs"))
    requires RunFrom(st, s, listed, orgLogins).0.None?
    ensures listed.Ok?
    ensures var st2 := RunFrom(st, s, listed, orgLogins).1;
            st2.gists == listed.value.0
            && st2.panel == PlainLinkRows(st2.orgs) + PlainLinkRows(st2.users) + listed.value.1
  {
    var st1 := st.(gists := listed.value.0);
    var u := UsersStep(st1, listed.value.1, s).value;
    var o := OrgsStep(u.0, u.1, s, orgLogins).value;
    assert RunFrom(st, s, listed, orgLogins).1 == o.0.(panel := o.1);
    if !Truthy(Get(s, "include_users")) {
      assert u.1 == listed.value.1 && u.0.users == [];
    }
    assert u.1 == PlainLinkRows(u.0.users) + listed.value.1;
    if !Truthy(Get(s, "include_orgs")) {
      assert o.1 == u.1 && o.0.orgs == [];
    }
    assert o.1 == PlainLinkRows(o.0.orgs) + u.1;
  }

  /** Selecting index `num` of that panel picks the organisation, user or
      gist shown there, by the same offset ranges as on_gist_num. */
  lemma RunPanelDispatch(st: ListState, s: Settings, listed: Result<(seq<Gist>, seq<PanelRow>)>, orgLogins: seq<string>, num: int)
    requires st.users == [] || Truthy(Get(s, "include_users"))
    requires st.orgs == [] || Truthy(Get(s, "include_orgs"))
    requires listed.Ok? ==> |listed.value.0| == |listed.value.1|
    requires RunFrom(st, s, listed, orgLogins).0.None?
    requires 0 <= num < |RunFrom(st, s, listed, orgLogins).1.panel|
    ensures listed.Ok?
    ensures var st2 := RunFrom(st, s, listed, orgLogins).1;
            |st2.panel| == |st2.orgs| + |st2.users| + |st2.gists|
            && match Dispatch(num, |st2.orgs|, |st2.users|)
               case PickOrg(i) => st2.panel[num] == Plain("> " + st2.orgs[i])
               case PickUser(i) => st2.panel[num] == Plain("> " + st2.users[i])
               case PickGist(i) => i < |st2.gists| && st2.panel[num] == listed.value.1[i]
               case Cancelled => false
  {
    RunPanelShape(st, s, listed, orgLogins);
    var st2 := RunFrom(st, s, listed, orgLogins).1;
    var os, us, gs := PlainLinkRows(st2.orgs), PlainLinkRows(st2.users), listed.value.1;
    assert st2.panel == os + us + gs;
    var off := |st2.orgs| + |st2.users|;
    if num >= off {
      assert st2.panel[num] == gs[num - off];
    } else if num >= |st2.orgs| {
      assert st2.panel[num] == us[num - |st2.orgs|];
    } else {
      assert st2.panel[num] == os[num];
    }
  }

  lemma RowsAligned(og: seq<Gist>, on: seq<Label>, sg: seq<Gist>, sn: seq<Label>, s: Settings)
    requires |og| == |on| && |sg| == |sn|
    requires forall i :: 0 <= i < |og| ==> KeepGist(og[i], s) == Ok(Some(on[i]))
    requires forall i :: 0 <= i < |sg| ==> KeepGist(sg[i], s) == Ok(Some(sn[i]))
    ensures var gs, rows := og + sg, GistRows(on) + StarredRows(sn);
            |gs| == |rows|
            && (forall i :: 0 <= i < |og| ==> rows[i].Row? && KeepGist(gs[i], s) == Ok(Some(rows[i].entry)))
            && (forall i :: |og| <= i < |gs| ==>
                  KeepGist(gs[i], s).Ok? && KeepGist(gs[i], s).value.Some?
                  && rows[i] == Row(Label(Gist80.Star + KeepGist(gs[i], s).value.value.title, None)))
  {
    var gs, rows := og + sg, GistRows(on) + StarredRows(sn);
    assert forall i :: 0 <= i < |og| ==> gs[i] == og[i] && rows[i] == Row(on[i]);
    forall i | |og| <= i < |gs|
      ensures KeepGist(gs[i], s) == Ok(Some(sn[i - |og|]))
      ensures rows[i] == Row(Label(Gist80.Star + sn[i - |og|].title, None))
    {
      assert gs[i] == sg[i - |og|];
      assert rows[i] == StarredRows(sn)[i - |og|];
    }
  }

  /** The listed rows line up with the listed gists: own gists under their
      renamed titles, starred gists under the star and the renamed title
      alone. */
  lemma ListedAligned(s: Settings, own: seq<Gist>, starred: seq<Gist>)
    requires ListedGists(s, own, starred).Ok?
    ensures var (gs, rows) := ListedGists(s, own, starred).value;
            var k := |FilterSpec(own, s).value.0|;
            |gs| == |rows| && k <= |gs|
            && (forall i :: 0 <= i < k ==> rows[i].Row? && KeepGist(gs[i], s) == Ok(Some(rows[i].entry)))
            && (forall i :: k <= i < |gs| ==>
                  KeepGist(gs[i], s).Ok? && KeepGist(gs[i], s).value.Some?
                  && rows[i] == Row(Label(Gist80.Star + KeepGist(gs[i], s).value.value.title, None)))
  {
    var a := FilterSpec(own, s).value;
    var b := FilterSpec(starred, s).value;
    FilterAligned(own, s);
    FilterAligned(starred, s);
    assert ListedGists(s, own, starred).value == (a.0 + b.0, GistRows(a.1) + StarredRows(b.1));
    RowsAligned(a.0, a.1, b.0, b.1, s);
  }
}
