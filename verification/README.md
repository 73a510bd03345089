# Gist plugin core in Dafny

This project models the logic of the Sublime Text "Gist" plugin that turns
GitHub gist records and editor settings into quick-panel names, endpoint
URLs, request bodies and request descriptions, and that classifies the
responses. Several revisions of the plugin coexist in the repository and
behave differently, so each revision is its own module:

- `GistHelpers` (gist_60_helpers.py): the current title and filter rules
  (`gist_title`, `gists_filter` with prefix, `#tag` and `name_prefix`),
  the syntax path, and linking a view to a gist and unlinking it.
- `Helpers` (helpers.py): the same filter with sorting by description or
  file extension (`set_sort_data`, `sort_gists_data`).
- `Gist80` (gist_80.py): `set_settings`, the `create_gist`/`update_gist`
  bodies, the file order of `open_gist` and `insert_gist_embed`, the names
  of the files of a new multi-selection gist, the list command
  (`GistListCommandBase.run`/`on_gist_num`), and the save listener.
- `GistLegacy` (gist.py): `initialize_globals`, the starred URL, the HTTP
  error message, the older non-dropping filter and the older list command.
- `SettingsClass` (settings.py): the `Settings` object whose `load`
  appends page-size suffixes to its URL fields.
- `Request` (request.py): token and proxy fallback, the cURL
  configuration, the status line, response classification, the urllib
  request, and the messages `api_request` reports instead of raising.
- `Request40` (gist_40_request.py): the urllib request with
  `If-Modified-Since`, the ETag cache file name, and the exception handler
  that answers a 304, re-raises other HTTP errors, and turns every other
  failure into an AttributeError when it closes it.

Shared vocabulary lives in `Common` (settings values, JSON, gists,
exceptions as an `Error` datatype, the settings store and view classes),
`Naming` (the title and tag rules every revision shares, panel rows and
index dispatch), `Text`, `Decimal`, `Utf8` and `Sorting` (the Python
string, `int`/`%d`, UTF-8 and stable `sorted` behaviour the code relies on).

Where the source changes state in place the model does too: the settings
store, the view, the list command, the legacy globals and the `Settings`
object are classes whose methods are proved equal to a specification
function of the old state, and the filters are loops proved equal to a
recursive specification. Network replies, cURL exit codes, header lines and
the content of the cache file are parameters.

## Model

| member | source | states |
|---|---|---|
| Common.TokenAuthString | gist.py:90-96 | fails with MissingCredentials exactly when the `token` setting is falsy; otherwise returns it unchanged |
| Decimal.ParseIntText | request.py:119 | `int()` reads back the `%d` text of every integer |
| Text.Words | request.py:118 | splitting on whitespace: no field is empty or holds whitespace |
| Text.WordsEmpty | request.py:118 | there are no fields exactly when the text is all whitespace |
| Text.WordsCons | request.py:118 | a maximal run of non-whitespace characters at the front splits off as the first field |
| Text.WordsSkipSpace | request.py:118 | leading whitespace does not change the fields |
| Text.SplitExt | gist_80.py:198 | `os.path.splitext`: stem + extension is the name; the extension is empty or a dot followed by neither a dot nor a slash |
| Text.Partition | gist.py:577 | `str.partition('?')`: the parts concatenate back to the input; the head has no `?` |
| Text.Strip | gist_40_request.py:26 | `strip('"')`: the result is a slice with only quotes cut from both ends, and it does not begin or end with a quote |
| Text.Join | gist_40_request.py:26 | `os.path.join` of two parts with `/`: an absolute second part wins, otherwise a single separator is placed |
| Utf8.DecodeEncode | gist_40_request.py:46 | the UTF-8 bytes of a request body decode back to the text |
| Sorting.SortBy | helpers.py:176-186 | `sorted` with a key gives a permutation of its input |
| Sorting.SortByStable | helpers.py:176-186 | `sorted` is stable: for every key value, the elements with that key appear in the result in their input order |
| Sorting.SortBySorted | helpers.py:176-186 | `sorted` with a key gives a list ordered by that key |
| Sorting.SortKeepsPairs | helpers.py:185-186 | when two lists have equal keys position by position, the i-th elements of their stable sorts come from the same input position |
| Naming.GistTitle | gist_60_helpers.py:33-45 | the title is the description when it is non-empty and `prefer_filename` is exactly False, otherwise the first file name (IndexError when there is none); an author is attached iff `show_authors` is truthy |
| Naming.TitleIgnoresAuthorField | helpers.py:40-51 | without `show_authors` the owner-based and user-based titles coincide |
| Naming.StripPrefix | gist_60_helpers.py:70-74 | with a prefix the title survives iff it starts with the prefix, and what remains is the title minus exactly that prefix |
| Naming.TagMatchAt | gist_60_helpers.py:54-57 | a `#tag` match starts at the beginning of the title or at a whitespace character followed by `#tag`, and ends at the end of the title or just after the whitespace that bounds the tag |
| Naming.FindTagFrom | gist_60_helpers.py:77 | the match found is the leftmost one; none is found iff no position matches |
| Naming.RemoveTag | gist_60_helpers.py:76-80 | fails iff no position matches; otherwise the title with the leftmost match, bounding whitespace included, cut out |
| Naming.ApplyTag | gist_60_helpers.py:76-82 | without a tag the title passes unchanged; with one it is the tag removal |
| Naming.KeepGist | gist_60_helpers.py:64-87 | fails iff the title fails; a kept gist has files, passes prefix and tag, and is named `name_prefix` + the rewritten title with the author kept |
| Naming.KeptRow | gist_60_helpers.py:64-87 | the loop body up to the append computes the row the filter rules give, or the title's error |
| Naming.Dispatch | gist_80.py:347-377 | a negative index cancels; then org, user and gist ranges follow each other with the offsets subtracted |
| Naming.LinkRows | gist_80.py:337 | one `> name` row per user or organisation, in order |
| Naming.GistRows | gist_80.py:333 | one row per gist name, in order |
| GistHelpers.DescriptionValue | gist_60_helpers.py:19 | a missing description is stored as null, any other as its text |
| GistHelpers.Linked | gist_60_helpers.py:18-21 | the four `gist_*` keys hold the html url, description, url and filename; every other key is unchanged |
| GistHelpers.StatusLine | gist_60_helpers.py:11-16 | `Gist: title`, followed by ` (filename)` only when the view's file has a different base name |
| GistHelpers.GistifyView | gist_60_helpers.py:10-22 | a failing title changes nothing; otherwise the view is linked, its status set, and an unnamed view is named after the file |
| GistHelpers.UngistifyView | gist_60_helpers.py:25-30 | exactly the four `gist_*` keys and the `Gist` status are erased |
| GistHelpers.UnlinkLinked | gist_60_helpers.py:18-30 | unlinking a linked view restores every other setting |
| GistHelpers.SyntaxPath | gist_60_helpers.py:92-111 | nothing without a language; `C` maps to the C++ package, any other language L to `Packages/L/L.tmLanguage` |
| GistHelpers.SyntaxFileNamesLanguage | gist_60_helpers.py:101-106 | the syntax file is named after the language |
| GistHelpers.SyntaxPathInjective | gist_60_helpers.py:101-106 | different languages get different syntax paths |
| GistHelpers.FilterSpec | gist_60_helpers.py:48-89 | the gist and name lists have equal length, at most the input's |
| GistHelpers.FilterSpecErrSticky | gist_60_helpers.py:64-68 | once a title fails, the whole filter fails with that error |
| GistHelpers.GistsFilter | gist_60_helpers.py:48-89 | the appending loop computes the filter specification |
| GistHelpers.FilterAligned | gist_60_helpers.py:84-89 | the i-th name is the kept name of the i-th gist |
| GistHelpers.FilterSubsequence | gist_60_helpers.py:64-89 | the kept gists are a subsequence of the input |
| GistHelpers.FilterComplete | gist_60_helpers.py:64-89 | every gist the rules keep is in the result |
| GistHelpers.FilterError | gist_60_helpers.py:65-68 | the filter fails iff some gist's title fails, including a file-less gist whose title needs a file |
| Helpers.FileExtension | helpers.py:158-163 | the piece after the first dot up to the next dot, or `[No Filename]` without a dot |
| Helpers.SetSortData | helpers.py:146-167 | description sort fills an empty description with the first file name; extension sorts record the extension and a `[title, extension]` pair |
| Helpers.Collected | helpers.py:71-104 | the collected gists and names have equal length |
| Helpers.CollectedErrSticky | helpers.py:71-76 | a failing title fails the whole filter |
| Helpers.SortGistsData | helpers.py:169-188 | description sort gives the gists as a permutation ordered by lower-case description (or first file name with `prefer_filename`) and the names as a permutation ordered by lower-case title; extension sort gives gists and extension names as permutations ordered by (no filename, lower-case extension); other sort types keep the order; the errors of a missing description, file, extension or file name |
| Helpers.GistsFilter | helpers.py:54-115 | the loop and the sort compute the filter specification |
| Helpers.UnsortedMatchesCurrent | helpers.py:71-90 | without sorting or authors the filter equals the current revision's filter with no name prefix |
| Helpers.CollectedExtensionAligned | helpers.py:100-104 | under an extension sort each collected pair is the gist's title and extension |
| Helpers.ExtensionSortResult | helpers.py:182-186 | the extension sort result is the stable sort of the collected gists and pairs |
| Helpers.NoFilenameLast | helpers.py:185 | in extension order, gists without a file extension come last |
| Helpers.ExtensionSortAligned | helpers.py:182-186 | after an extension sort the i-th name carries the i-th gist's extension and one of the collected titles of that gist |
| Helpers.DescriptionSortSorted | helpers.py:171-180 | after a description sort gists and names are each sorted permutations of the collected lists |
| Helpers.CollectedDescriptionsFilled | helpers.py:150-153 | under a description sort no collected gist keeps an empty description |
| Helpers.FileExtensionKeepsOrder | helpers.py:92-115 | `file extension` records extensions but neither collects pairs nor sorts, so the order is the input's |
| Gist80.SetSettings | gist_80.py:36-48 | the settings store ends as the specification of `set_settings` gives it |
| Gist80.WithEndpointsGet | gist_80.py:41-48 | the five endpoint keys are written and nothing else |
| Gist80.SetSettingsEndpoints | gist_80.py:37-48 | fails iff `max_gists` is not a number or `api_url` not text; clamps to 100; the gist URLs end with `?per_page=N`, the organisation URLs do not; other keys unchanged |
| Gist80.SetSettingsIdempotent | gist_80.py:32-48 | running `set_settings` again on its own output changes nothing |
| Gist80.CreateGist | gist_80.py:71-80 | no request iff some content is empty; otherwise a POST to `GISTS_URL` with description, public and files |
| Gist80.CreateGistSubmitsFiles | gist_80.py:77-78 | the files of the body read back as exactly the given name-to-content map |
| Gist80.UpdateGist | gist_80.py:83-88 | a PATCH of `gist_url` whose body has `files` verbatim, and `description` iff one is given |
| Gist80.FilesByName | gist_80.py:97 | the files sorted by name, a permutation of the gist's files |
| Gist80.KeepOpenable | gist_80.py:99-103 | exactly the text and application files, in the same order |
| Gist80.OpenedFiles | gist_80.py:95-104 | the files `open_gist` would open when titling succeeds: exactly the openable ones, as a subsequence of the files sorted by name, so each once and in name order |
| Gist80.OpenGist | gist_80.py:95-107 | all openable files are opened unless `show_authors` is set and the gist has no owner, in which case only the first is opened before gist_title raises AttributeError |
| Gist80.OpenGistWithoutAuthors | gist_60_helpers.py:10-11 | without `show_authors` the title cannot fail, so every openable file is opened and no error is raised |
| Gist80.ScriptTagUrl | gist_80.py:154 | the raw URL can be read back out of its script tag |
| Gist80.EmbedScripts | gist_80.py:147-158 | one script tag per file, in name order |
| Gist80.NumberedFileNameInjective | gist_80.py:198-199 | `stem (i)ext` names differ for different numbers |
| Gist80.SyntaxFileNameInjective | gist_80.py:201-202 | `syntax i` names differ for different numbers |
| Gist80.RegionNames | gist_80.py:196-203 | fails iff there is neither a filename nor a syntax; otherwise n distinct names |
| Gist80.NumberedNames | gist_80.py:198-199 | n names `stem (1)ext` ... `stem (n)ext`, pairwise different |
| Gist80.SyntaxNames | gist_80.py:200-202 | n names `syntax 1` ... `syntax n`, pairwise different |
| Gist80.NameMap | gist_80.py:203 | the keys are exactly the names, one per name, and the i-th text is stored under the i-th name |
| Gist80.GistData | gist_80.py:194-203 | one file per region; one region is stored under the typed name; several get numbered or syntax names, with the i-th text under the i-th name |
| Gist80.NamesOf | gist_80.py:336 | `list()` of a list setting is the list and of a string its characters; other values fail |
| Gist80.ListedAligned | gist_80.py:324-333 | the listed gists and names are aligned and every listed gist has files |
| Gist80.UsersStep | gist_80.py:335-337 | with `include_users` the users are set and their rows put in front; otherwise nothing changes |
| Gist80.OrgsStep | gist_80.py:339-345 | with `include_orgs` the organisations are set and their rows put in front; otherwise nothing changes |
| Gist80.ListCommand.constructor | gist_80.py:320 | the lists start empty |
| Gist80.ListCommand.Run | gist_80.py:323-345 | the command's state ends as the specification of `run` gives it |
| Gist80.ListCommand.OnGistNum | gist_80.py:347-377 | the command's state ends as the specification of `on_gist_num` gives it; the member loop concatenates every member's gists |
| Gist80.UsersStepRows | gist_80.py:335-337 | from no users, or when the setting replaces them, the user rows are put in front of the rows so far |
| Gist80.OrgsStepRows | gist_80.py:339-345 | from no organisations, or when the setting replaces them, the organisation rows are put in front |
| Gist80.RunPanelShape | gist_80.py:324-345 | the panel is the organisation rows, then the user rows, then the gist rows |
| Gist80.RunPanelAligned | gist_80.py:324-377 | each panel row dispatches to the organisation, user or gist shown on it |
| Gist80.StaleUsersShiftSelection | gist_80.py:335-352 | users left over from an earlier run shift the offsets, so picking the only row selects a user |
| Gist80.DrillClearsLinks | gist_80.py:354-375 | drilling into an organisation or user empties both link lists |
| Gist80.SaveRequest | gist_80.py:408-414 | the update sends `{gist_filename: {content: text}}` to `gist_url` with the settings token and proxy |
| Gist80.OnPreSave | gist_80.py:401-414 | the view's settings and the update requested are those the specification of `on_pre_save` gives |
| Gist80.OpenedViewUpdatesOnNextSave | gist_80.py:401-414 | after opening with update-on-save, the first save only sets `do-update` and the second requests an update |
| GistLegacy.Globals.constructor | gist.py:56-59 | the globals start at the public URLs |
| GistLegacy.Globals.InitializeGlobals | gist.py:36-77 | the globals and the settings end as the specification of `initialize_globals` gives them |
| GistLegacy.InitUrls | gist.py:62-77 | enterprise replaces only the gists URL; a page size up to 100 is appended to the gists and user URLs; a larger one is written back as 100 |
| GistLegacy.InitAfterClamp | gist.py:70-77 | after a clamp the next initialisation appends `?per_page=100` |
| GistLegacy.StarredUrl | gist.py:577-578 | `/starred` is inserted before the first `?`, or appended when there is none |
| GistLegacy.StarredKeepsPageSize | gist.py:577-578 | the starred URL keeps the page-size query |
| GistLegacy.HttpErrorMessage | gist.py:122-131 | `Gist: GitHub returned error N`, plus `: message` when the JSON object has a truthy message; a non-object fails and a non-text message fails |
| GistLegacy.HttpErrorMessageOpening | gist.py:123 | every message opens with the code |
| GistLegacy.LegacyRename | gist.py:296-302 | a matching prefix is stripped and the tag ignored; otherwise the tag is removed when it matches |
| GistLegacy.KeepGist | gist.py:290-305 | a gist without files is skipped; every other gist is kept under its renamed title |
| GistLegacy.FilterSpec | gist.py:277-307 | gists and names have equal length |
| GistLegacy.FilterSpecErrSticky | gist.py:290-307 | a failing title fails the whole filter |
| GistLegacy.GistsFilter | gist.py:277-307 | the appending loop computes the filter specification |
| GistLegacy.WithFiles | gist.py:291-292 | exactly the gists that have files |
| GistLegacy.FilterKeepsAllWithFiles | gist.py:290-307 | the filter keeps every gist with files, in order |
| GistLegacy.FilterAligned | gist.py:304-307 | the i-th name is the renamed title of the i-th gist |
| GistLegacy.FilterError | gist.py:294 | the filter fails iff some gist with files has a failing title |
| GistLegacy.PlainLinkRows | gist.py:586 | one plain `> name` row per user or organisation |
| GistLegacy.StarredRows | gist.py:582 | starred rows are `★ title` with the author dropped |
| GistLegacy.UsersStep | gist.py:584-586 | with `include_users` the users are set and their rows put in front |
| GistLegacy.OrgsStep | gist.py:588-594 | with `include_orgs` the organisations are set (fetched when the setting equals True) and their rows put in front |
| GistLegacy.ListCommand.constructor | gist.py:570 | the lists start empty |
| GistLegacy.ListCommand.Run | gist.py:573-594 | initialises the globals; asks for the starred URL derived from them exactly when initialisation and the own-list filter succeed; ends in the state the specification gives |
| GistLegacy.RunPanelShape | gist.py:576-594 | the panel is organisation rows, user rows, own rows, then starred rows |
| GistLegacy.RunPanelDispatch | gist.py:598-627 | each panel row dispatches to what is shown on it |
| GistLegacy.RowsAligned | gist.py:581-582 | own and starred rows line up with the gists they name |
| GistLegacy.ListedAligned | gist.py:576-582 | the listed gists and rows are aligned |
| SettingsClass.SettingsObject.constructor | settings.py:7-14 | a fresh object holds the five public URLs |
| SettingsClass.AddText | settings.py:27 | `+=` of text: text is concatenated, a list is extended by the characters, any other value raises TypeError |
| SettingsClass.SettingsObject.Load | settings.py:21-38 | the URL fields and the settings end as the specification of `load` gives them, with the raw `url` left in the gists URL when the enterprise step fails |
| SettingsClass.LoadUrls | settings.py:22-38 | enterprise replaces only the gists URL; a truthy page size up to 100 is appended to the gists, user and starred URLs; a larger one is written back as 100 |
| SettingsClass.NonTextUrlFailsPageSize | settings.py:30-35 | a gists URL that is neither text nor a list makes a load with a page size raise TypeError before any field changes |
| SettingsClass.MissingUrlBreaksReload | settings.py:21-33 | an enterprise load without `url` leaves None in the gists URL, so the next load with a page size raises TypeError |
| SettingsClass.ListUrlIsExtended | settings.py:23-35 | a list-valued `url` is no error: the suffix and page size extend the list |
| SettingsClass.LoadTwiceAppendsTwice | settings.py:18-35 | loading twice appends the page size twice: `load` is not idempotent |
| SettingsClass.ClampThenReload | settings.py:30-38 | a clamp changes no URL; the reload it triggers appends `?per_page=100` |
| Request.TokenText | request.py:88-89 | an explicit token is used as given; otherwise the settings token, MissingCredentials when it is falsy; a non-text token fails |
| Request.ExplicitTokenIgnoresSettings | request.py:47 | an explicit token does not depend on the settings |
| Request.ResolveProxy | request.py:97 | an explicit proxy wins over the settings proxy |
| Request.CurlConfig | request.py:88-108 | headers and `--silent`, then the method, the proxy, the header dump and the data file, each only when present; token and proxy failures |
| Request.CurlConfigLayout | request.py:89-108 | the configuration opens with the headers and ends with the data file exactly when there is data |
| Request.StatusCode | request.py:117-119 | succeeds iff the line has three fields and an integer second field, and gives that integer |
| Request.StatusCodeOfLine | request.py:118-119 | the code of a `VERSION CODE REASON` line is read back |
| Request.StatusLineWithoutReason | request.py:118 | a line without a reason phrase fails to unpack |
| Request.Classify | request.py:121-126 | 204 gives nothing; 100 and other 2xx the decoded body; anything else SimpleHTTPError with the body |
| Request.CurlResult | request.py:114-126 | a non-zero exit raises CalledProcessError before the status line is read |
| Request.ClassifyNative | request.py:64-73 | 204 gives nothing, other responses the decoded body, an HTTPError becomes SimpleHTTPError |
| Request.NativeAgreesWithCurl | request.py:66-73 | for a final status code that urllib does not redirect, both paths classify the response alike, except 100, which cURL accepts and an unredirected urllib response would report as an error |
| Request.UrlRequest.constructor | request.py:43 | a request with no method, headers or data |
| Request.UrlRequest.SetMethod | request.py:45-46 | sets the method and nothing else |
| Request.UrlRequest.AddHeader | request.py:48-50 | appends one header and changes nothing else |
| Request.UrlRequest.AddData | request.py:52-53 | sets the body and nothing else |
| Request.NativeRequest | request.py:42-62 | the three headers in order, the UTF-8 body iff there is data, the method iff given, and an opener only for a truthy proxy |
| Request.RequestBodyRoundTrip | request.py:53 | the request body decodes back to the data |
| Request.ApiRequest | request.py:130-156 | cURL, environment and HTTP errors become a message and None, other errors propagate, and the unreachable SSL/cURL message never appears |
| Request40.RequestHeaders | gist_40_request.py:39-43 | the three standard headers, then `If-Modified-Since` iff a date is given |
| Request40.BuildRequest | gist_40_request.py:33-58 | the headers in order, the UTF-8 body iff data is not None, the method iff given, the explicit proxy first and an opener only when truthy |
| Request40.CacheFileName | gist_40_request.py:26 | the file is the quote-stripped ETag plus `.json` inside the temporary directory |
| Request40.CacheFileBasename | gist_40_request.py:26 | the last path component is the stripped ETag plus `.json` |
| Request40.CacheFileNameInjective | gist_40_request.py:26 | different stripped ETags use different cache files |
| Request40.CacheWrite | gist_40_request.py:62-68 | only a non-204 response with a non-empty ETag is stored, under its cache file |
| Request40.CacheLookup | gist_40_request.py:79-82 | only a 304 carrying an ETag is looked up, under its cache file |
| Request40.StoredResponseIsFound | gist_40_request.py:65-82 | a response stored under an ETag is looked up under the same file on a 304 |
| Request40.HandleFailure | gist_40_request.py:72-98 | a cached object is returned marked `cached`; a missing cache refetches with the original data and the 2010 date; any other HTTP error is re-raised; every other failure escapes as AttributeError |
| Request40.CachedListReraises304 | gist_40_request.py:85-95 | a cached JSON array re-raises the 304 instead of refetching |
| Request40.CachedStringBecomesBody | gist_40_request.py:85-93 | a cached string is sent as the body of the second request |
| Request40.HandleFailureIntended | gist_40_request.py:78-93 | the handler with the original data kept: cached objects are returned, everything else about a 304 refetches |
| Request40.IntendedAnswers304 | gist_40_request.py:78-93 | with the data kept, a 304 with an ETag is never re-raised, nothing escapes in its place, and a refetch carries the original body |
| Request40.WhereHandlersDiffer | gist_40_request.py:85-98 | the as-written and intended handlers differ only on a failure that is not an HTTPError and when the cache of a 304 holds a non-object |
| Request40.AfterRefetch | gist_40_request.py:93-98 | the second request's value is returned; its failure re-raises the original 304 |
| Request40.Respond | gist_40_request.py:60-98 | 204 gives None before any body read; other responses give the decoded body, or AttributeError when it does not decode; failures go to the handler |
| Request40.FailuresReraisedUnchanged | gist_40_request.py:72-98 | an HTTP error other than a 304 with an ETag is re-raised as it was, so it never becomes SimpleHTTPError |
| Request40.OtherFailuresBecomeAttributeError | gist_40_request.py:72-98 | an error from urlopen that is not an HTTPError, and an undecodable body, both leave as AttributeError, not as themselves |
| Request40.RespondIntended | gist_40_request.py:60-98 | as Respond, with an undecodable body re-raising its ValueError and failures going to the intended handler |
| Request40.IntendedReraisesUnchanged | gist_40_request.py:72-98 | with the intended handler, every failure other than a 304 with an ETag, and an undecodable body's ValueError, is re-raised as it was |

## Left out

- Network and process I/O: `urlopen`, the cURL subprocess, temporary files, the cache file's write and read, and the second request. Their results are parameters.
- JSON serialisation (`json.dumps`/`json.loads`): bodies are structured `Json` values. A body that does not decode is `Unparsable`.
- Editor effects: panels, popups, status messages, clipboard, browser, buffer commands, `set_scratch`/`retarget`, and whether a syntax file exists. Only the values passed to them are modelled.
- The background thread that runs the save update: `OnPreSave` returns the update it would start.
- The settings-file copy in `catch_errors`, its MissingCredentials and "unknown error" messages, and the git.io clients.
- Python 2 branches and Windows path separators. Paths use `/`.
- `str.split`, `isspace` and `lower` are modelled on ASCII only.
- `int()` accepting underscores and surrounding whitespace is not modelled.
- Settings values are null, booleans, integers, text or lists of text. Floats, dicts and nested lists are not modelled.
- Naming.KeepGist: a truthy non-text `gist_prefix` or `gist_tag` counts as unset, here and in GistHelpers.GistsFilter, Helpers.GistsFilter and GistLegacy.GistsFilter. The source behaves as follows:
  - an integer or True prefix raises TypeError at `len(prefix)`, before the loop, in all three filters;
  - a list prefix has a length but never equals a slice of a title. gist_60_helpers.py and helpers.py therefore drop every gist that has files, while gist.py treats it as unset, as modelled;
  - a non-text tag makes `re.escape` fail (TypeError in current Python 3), before the loop.
- A truthy non-text `token` and a non-text `api_url` raise TypeError, as the concatenations in the source do. A non-text `url` is kept raw by `SettingsClass` (see `AddText`). `GistLegacy` rejects it as described below.
- The view's `syntax` setting is text.
- An absent and a null description are the same value.
- Gist records are values, so the in-place rewrites of `set_sort_data` and `name[0]` are modelled as returned copies. Aliasing of a gist dict between lists is not captured.
- The tag pattern's `$` is the end of the string. Python's match before a final newline is not modelled.
- The `%s` substitution of user and organisation names into URLs: the fetched gists are parameters.
- The reload callback registered through `add_on_change`: each reload is a separate `Load` call.
- urllib's header-name capitalisation (`Content-type`) is not modelled. Headers are kept as added.
- GistLegacy.Globals.InitializeGlobals: after an enterprise error the source leaves the raw `url` value in `GISTS_URL`; the model stores the empty string. Each call resets the URL, so no later call sees it.
- GistLegacy.Globals.InitializeGlobals: a truthy non-text `url` fails with TypeError. For a list `url` the source instead extends the list and fails only later, when the list command uses the URL.
- Gist80.OrgsStep: an `include_orgs` value other than True is iterated as `list()` iterates it: a list gives its items, a text its characters, and a number fails with TypeError.
- Gist80.ListCommand.Run: for a non-iterable `include_orgs` the source stores the value in `orgs` before the comprehension fails, so a later `on_gist_num` fails in `len`. The model keeps the old organisations.
- Gist80.ListCommand.Run: the fetched gist lists are parameters, so the None that `api_request` returns after a reported failure, on which `run` fails with TypeError, is not modelled.
- GistLegacy.ListCommand.Run: as in Gist80, a non-iterable `include_orgs` is stored in `orgs` by the source before iterating it fails. The model keeps the old organisations.
- Naming.GistTitle: `owner` and `user` are the account's login or None. An account whose `login` is missing is not modelled: Python then shows `[title, None]`.
- Request40.BuildRequest: `since_date` is text, with the empty string standing for False.
- Request.NativeAgreesWithCurl: `UrllibOutcome` gives urllib's result for one final status code. It leaves out two things. urllib follows a 301, 302, 303 or 307 that carries a `Location` and returns the target's body, where cURL (run without `-L`) raises SimpleHTTPError. urllib also never reports an interim `100 Continue`, which can instead open cURL's header dump.
- Request.ApiRequest: the choice between cURL and urllib (`ssl` module present, `os.name`) is not modelled. Both paths are modelled, and `ApiRequest` takes either's outcome.
- The test that expects gist_40_request.py to raise SimpleHTTPError on an HTTP error does not match the code, which re-raises the HTTPError. The model follows the code.
- open_gist's per-view effects after choosing a file (`do-update` False, scratch, syntax) are not modelled. Only the choice and order of the files are.

## Findings

| source | as written | input that shows it | evidently intended | confidence | as-written member | corrected member |
|---|---|---|---|---|---|---|
| gist_40_request.py:85-93 | the cached JSON is bound to `data` before `data['cached'] = True`, so when marking fails the second request is sent with the cached value as its body | a 304 with an ETag whose cache file holds a JSON array, which is what the gist list endpoints return: `data.encode` fails inside the handler and the 304 HTTPError is re-raised; a cached string becomes the request body | the second request carries the original body, so a 304 with an ETag is answered or refetched, never re-raised | medium, not executed | Request40.CachedListReraises304 | Request40.IntendedAnswers304 |
| gist_40_request.py:97-98 | the failure is re-raised inside `with contextlib.closing(e)`, whose exit calls `e.close()`; only an HTTPError has `close` | a URLError or timeout from urlopen, or a response body that is not JSON: the handler cannot iterate it, passes, and closing it raises AttributeError, which replaces the original exception | every failure the handler does not answer is re-raised as itself | medium, not executed | Request40.OtherFailuresBecomeAttributeError | Request40.IntendedReraisesUnchanged |
