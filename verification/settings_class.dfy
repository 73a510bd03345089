/** settings.py: the Settings object of the packaged plugin. It keeps the
    five endpoint URLs in fields and appends to them on every load, which the
    editor repeats each time the settings file changes. */
module SettingsClass {
  import opened Common
  import opened Decimal
  import Gist80

  /** The five URL fields. The gists URL is whatever `load` last assigned to
      it, which is the raw `url` setting after a failed enterprise load; the
      other four only ever hold text. */
  datatype Endpoints = Endpoints(gists: Value, userGists: string, starredGists: string, orgs: string, orgMembers: string)

  /** The URLs a fresh Settings object starts with. */
  const PublicEndpoints: Endpoints :=
    Endpoints(Str("https://api.github.com/gists"), "https://api.github.com/users/%s/gists",
              "https://api.github.com/gists/starred", "https://api.github.com/user/orgs",
              "https://api.github.com/orgs/%s/members")

  /** The one-character strings a list is extended by when text is added to it. */
  function Characters(t: string): seq<string>
  {
    seq(|t|, i requires 0 <= i < |t| => [t[i]])
  }

  /** `v += t` for a text `t`: text is concatenated, a list is extended by the
      characters of `t`, and any other value raises TypeError. */
  function AddText(v: Value, t: string): (r: Result<Value>)
    ensures r.Err? <==> !v.Str? && !v.List?
    ensures r.Err? ==> r.error == TypeError
    ensures v.Str? ==> r == Ok(Str(v.s + t))
    ensures v.List? ==> r.Ok? && r.value.List? && |r.value.items| == |v.items| + |t|
                        && r.value.items[..|v.items|] == v.items
                        && forall i :: 0 <= i < |t| ==> r.value.items[|v.items| + i] == [t[i]]
  {
    match v
    case Str(s) => Ok(Str(s + t))
    case List(xs) => Ok(List(xs + Characters(t)))
    case _ => Err(TypeError)
  }

  /** `load` as a function of the URL fields and the settings it starts from:
      the error it raises, the fields and the settings it leaves. Nothing is
      reset first: the gists URL is assigned the raw `url` before it is
      checked, and a failing `+=` leaves the later fields unchanged. */
  function LoadSpec(e: Endpoints, m: Settings): (Option<Error>, Endpoints, Settings)
  {
    var enterprise := Truthy(Get(m, "enterprise"));
    var url := Get(m, "url");
    if enterprise && !Truthy(url) then (Some(MissingCredentials), e.(gists := url), m)
    else if enterprise && AddText(url, "/api/v3/gists").Err? then
      (Some(AddText(url, "/api/v3/gists").error), e.(gists := url), m)
    else
      var e1 := if enterprise then e.(gists := AddText(url, "/api/v3/gists").value) else e;
      var v := Get(m, "max_gists");
      if !Truthy(v) then (None, e1, m)
      else match AsInt(v)
        case None => (Some(TypeError), e1, m)
        case Some(n) =>
          if n > 100 then (None, e1, m["max_gists" := Int(100)])
          else
            var q := Gist80.PerPage(n);
            match AddText(e1.gists, q)
            case Err(err) => (Some(err), e1, m)
            case Ok(g) => (None, e1.(gists := g, userGists := e1.userGists + q, starredGists := e1.starredGists + q), m)
  }

  class SettingsObject {
    var gistsUrl: Value
    var userGistsUrl: string
    var starredGistsUrl: string
    var orgsUrl: string
    var orgMembersUrl: string
    /** The editor settings the object reads and writes (`get`, `set`). */
    const loaded: SettingsStore

    function Urls(): Endpoints
      reads this
    {
      Endpoints(gistsUrl, userGistsUrl, starredGistsUrl, orgsUrl, orgMembersUrl)
    }

    /** `__init__` up to its call of `load`: the public URLs. */
    constructor (loaded: SettingsStore)
      ensures this.loaded == loaded
      ensures Urls() == PublicEndpoints
    {
      this.loaded := loaded;
      gistsUrl := Str("https://api.github.com/gists");
      userGistsUrl := "https://api.github.com/users/%s/gists";
      starredGistsUrl := "https://api.github.com/gists/starred";
      orgsUrl := "https://api.github.com/user/orgs";
      orgMembersUrl := "https://api.github.com/orgs/%s/members";
    }

    /** load: enterprise base URL, then the page size. */
    method Load() returns (err: Option<Error>)
      modifies this, loaded
      ensures (err, Urls(), loaded.values) == LoadSpec(old(Urls()), old(loaded.values))
    {
      if Truthy(Get(loaded.values, "enterprise")) {
        gistsUrl := Get(loaded.values, "url");
        if !Truthy(gistsUrl) {
          return Some(MissingCredentials);
        }
        var base := AddText(gistsUrl, "/api/v3/gists");
        if base.Err? {
          return Some(base.error);
        }
        gistsUrl := base.value;
      }
      var maxGists := Get(loaded.values, "max_gists");
      if Truthy(maxGists) {
        var n := AsInt(maxGists);
        if n.None? {
          return Some(TypeError);
        }
        if n.value <= 100 {
          var q := Gist80.PerPage(n.value);
          var g := AddText(gistsUrl, q);
          if g.Err? {
            return Some(g.error);
          }
          gistsUrl := g.value;
          userGistsUrl := userGistsUrl + q;
          starredGistsUrl := starredGistsUrl + q;
        } else {
          loaded.Set("max_gists", Int(100));
        }
      }
      return None;
    }
  }

  /** One successful load: `enterprise` replaces only the gists URL; a
      truthy `max_gists` of at most 100 appends `?per_page=N` to the gists,
      user-gists and starred URLs; a larger one is written back as 100 and no
      URL changes; the organisation URLs never change. */
  lemma LoadUrls(e: Endpoints, m: Settings)
    requires LoadSpec(e, m).0.None?
    ensures var e2 := LoadSpec(e, m).1;
            var url := Get(m, "url");
            var v := Get(m, "max_gists");
            var q := if Truthy(v) && AsInt(v).value <= 100 then Gist80.PerPage(AsInt(v).value) else "";
            && (Truthy(Get(m, "enterprise")) && url.Str? ==> e2.gists == Str(url.s + "/api/v3/gists" + q))
            && (!Truthy(Get(m, "enterprise")) && e.gists.Str? ==> e2.gists == Str(e.gists.s + q))
            && (e2.gists.Str? || e2.gists.List? || (q == "" && e2.gists == e.gists))
            && e2.userGists == e.userGists + q
            && e2.starredGists == e.starredGists + q
            && e2.orgs == e.orgs && e2.orgMembers == e.orgMembers
    ensures var m2 := LoadSpec(e, m).2;
            var v := Get(m, "max_gists");
            m2 == if Truthy(v) && AsInt(v).value > 100 then m["max_gists" := Int(100)] else m
  {
  }

  /** A gists URL that is neither text nor a list makes every load that
      appends a page size fail with TypeError, before any field changes. */
  lemma NonTextUrlFailsPageSize(e: Endpoints, m: Settings)
    requires !Truthy(Get(m, "enterprise"))
    requires AsInt(Get(m, "max_gists")).Some? && 0 < AsInt(Get(m, "max_gists")).value <= 100
    requires !e.gists.Str? && !e.gists.List?
    ensures LoadSpec(e, m) == (Some(TypeError), e, m)
  {
  }

  /** A load with `enterprise` set and no `url` leaves None in the gists URL,
      so the next load that appends a page size raises TypeError, even once
      `enterprise` is switched off. */
  lemma MissingUrlBreaksReload(e: Endpoints, m1: Settings, m2: Settings)
    requires Truthy(Get(m1, "enterprise")) && Get(m1, "url") == Null
    requires !Truthy(Get(m2, "enterprise"))
    requires AsInt(Get(m2, "max_gists")).Some? && 0 < AsInt(Get(m2, "max_gists")).value <= 100
    ensures var (err1, e1, _) := LoadSpec(e, m1);
            && err1 == Some(MissingCredentials) && e1 == e.(gists := Null)
            && LoadSpec(e1, m2) == (Some(TypeError), e1, m2)
  {
    NonTextUrlFailsPageSize(e.(gists := Null), m2);
  }

  /** A list-valued `url` is no error: the enterprise suffix and the page
      size extend the list by their characters. */
  lemma ListUrlIsExtended(e: Endpoints, m: Settings)
    requires Truthy(Get(m, "enterprise")) && Get(m, "url").List? && Truthy(Get(m, "url"))
    requires AsInt(Get(m, "max_gists")).Some? && 0 < AsInt(Get(m, "max_gists")).value <= 100
    ensures var xs := Get(m, "url").items;
            var q := Gist80.PerPage(AsInt(Get(m, "max_gists")).value);
            var (err, e1, _) := LoadSpec(e, m);
            && err.None? && e1.gists.List?
            && |e1.gists.items| == |xs| + |"/api/v3/gists"| + |q|
            && e1.gists.items[..|xs|] == xs
  {
    var xs := Get(m, "url").items;
    var b := AddText(Get(m, "url"), "/api/v3/gists").value;
    assert b.items[..|xs|] == xs;
    var q := Gist80.PerPage(AsInt(Get(m, "max_gists")).value);
    var g := AddText(b, q).value;
    assert g.items[..|b.items|] == b.items;
    assert g.items[..|xs|] == b.items[..|xs|];
  }

  /** Loading is not idempotent: a second load with the same page size N
      appends a second `?per_page=N` to the user-gists and starred URLs (and
      to a text gists URL unless `enterprise` resets it). */
  lemma LoadTwiceAppendsTwice(e: Endpoints, m: Settings)
    requires !Truthy(Get(m, "enterprise"))
    requires AsInt(Get(m, "max_gists")).Some? && 0 < AsInt(Get(m, "max_gists")).value <= 100
    requires e.gists.Str?
    ensures var (err1, e1, m1) := LoadSpec(e, m);
            var (err2, e2, m2) := LoadSpec(e1, m1);
            var q := Gist80.PerPage(AsInt(Get(m, "max_gists")).value);
            && err1.None? && err2.None? && m2 == m1 == m
            && e2.gists == Str(e.gists.s + q + q)
            && e2.userGists == e.userGists + q + q
            && e2.starredGists == e.starredGists + q + q
            && e2 != e1
  {
    var q := Gist80.PerPage(AsInt(Get(m, "max_gists")).value);
    var e1 := LoadSpec(e, m).1;
    assert |e1.userGists + q| > |e1.userGists|;
  }

  /** A `max_gists` above 100 leaves the URLs without a page size; the
      reload its write-back triggers reads 100 and appends `?per_page=100`
      to a text gists URL. */
  lemma ClampThenReload(e: Endpoints, m: Settings)
    requires !Truthy(Get(m, "enterprise"))
    requires AsInt(Get(m, "max_gists")).Some? && AsInt(Get(m, "max_gists")).value > 100
    requires e.gists.Str?
    ensures var (err1, e1, m1) := LoadSpec(e, m);
            var (err2, e2, m2) := LoadSpec(e1, m1);
            && err1.None? && e1 == e && Get(m1, "max_gists") == Int(100)
            && err2.None? && m2 == m1
            && e2 == e.(gists := Str(e.gists.s + "?per_page=100"), userGists := e.userGists + "?per_page=100",
                        starredGists := e.starredGists + "?per_page=100")
  {
    assert IntText(100) == "100";
    assert Gist80.PerPage(100) == "?per_page=100";
  }
}
