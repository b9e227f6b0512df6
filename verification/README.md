# unity-serve-cli, modelled in Dafny

unity-serve-cli is a small local web server for Unity WebGL builds. It ships in two
variants:

- Node (`index.js` with `homepage.js`).
- Deno (`index-deno.js` with `homepage-deno.js`).

Both variants set the response headers a WebGL build needs:

- the cross-origin-isolation headers for `SharedArrayBuffer`;
- `Content-Encoding` for pre-compressed `.br`/`.gz` assets;
- `Content-Type` for `.wasm`, `.js`, `.data`, `.bundle` and `.unityweb` files.

Both also serve a homepage that lists the build folders under `Builds/`. The Deno variant
routes static requests itself:

- a file is served as-is;
- a directory without a trailing slash is redirected to the slash-terminated path;
- a directory with a trailing slash gets its `index.html` or a generated listing;
- anything else is `404 Not Found`.

The model represents the file system as a tree of values, so errors are data:

- `File(size)`: a regular file.
- `Special(size)`: a non-regular file, such as a FIFO or device.
- `Dir(entries)`: a directory with its entries in `readdir` order.
- `Sealed(reason)`: `stat` says directory, but it can be neither listed nor searched.
- `Unreadable(reason)`: `stat` itself fails (missing, permission denied, dangling link).

The modules are:

- `Text`: `includes`, `endsWith`, `join('')` and decimal numerals.
- `FileTree`: the tree, lookups, URL path segments and `stat`.
- `HeaderRules`: the header rules both servers share, and the `HeaderMap` class they fill in place.
- `Homepage`: `homepage.js`.
- `HomepageDeno`: `homepage-deno.js`.
- `ServerDeno`: `index-deno.js`.
- `ServerNode`: `index.js`.

How builds are found and measured:

- A build is an immediate sub-folder of `Builds/` that holds `ServiceWorker.js`, and builds
  are listed in `readdir` order. The output of Unity's default template, a folder holding
  only `TemplateData` and `Build`, is therefore not listed
  (`Homepage.MarkerFileIsTheOnlySignal`).
- `calculateDirSize` ends a directory's loop at the first failing `stat`, keeping the total
  so far (`Homepage.SizeStopsAtFailure`). `scanBuilds` skips only the failing entry
  (`Homepage.FailingEntrySkipped`).

## Model

| member | source | states |
|---|---|---|
| FileTree.Exists | homepage.js:33 | `existsSync`: true iff `stat` succeeds (no contract of its own; `FileTree.Child` says what an existing child is) |
| FileTree.IsDirectory | homepage.js:43-44 | `stat(...).isDirectory()`: a listable or a sealed directory (no contract of its own; `FileTree.StatPath` relies on it) |
| FileTree.Lookup | homepage.js:15-16 | looking a name up in a directory gives the first entry with that name, or a missing-entry failure when there is none |
| FileTree.Child | homepage.js:44 | a child that exists is an entry of the directory under that name |
| FileTree.LookupFound | homepage.js:44 | whatever a lookup finds is an entry of the directory under the name looked up |
| FileTree.Split | index-deno.js:78 | splitting a URL path yields only non-empty components without `/` |
| FileTree.Segments | index-deno.js:78 | the components `join(baseDir, path.slice(1))` names below the base directory (no contract of its own; `FileTree.SegmentsOfPath`, `FileTree.SegmentsTrailingSlash` and `FileTree.SegmentsAppendName` are its properties) |
| FileTree.Resolve | index-deno.js:81 | the node reached by looking each component up in turn (no contract of its own; `ServerDeno.ResolveAppend` is its property) |
| FileTree.SegmentsOfPath | index-deno.js:78 | the components of a path built from names are exactly those names (round trip) |
| FileTree.SegmentsTrailingSlash | index-deno.js:91 | a trailing `/` does not change which node a path names |
| FileTree.StatPath | index-deno.js:81 | a path with a trailing `/` that `stat` accepts is a directory (anything else fails with ENOTDIR) |
| FileTree.Join | index.js:20 | `join(base, name)` names the components of `base` followed by `name`; it is `name` itself when `base` is empty and otherwise ends with `/` + name |
| FileTree.BuildsDir | index.js:20 | the builds directory (also `index-deno.js` line 10) names the base directory's components followed by `Builds` |
| FileTree.SegmentsAppendName | index-deno.js:178 | appending a name to a slash-terminated path appends one component |
| Text.Concat | homepage.js:82 | `.join('')`: a single string joins to itself (`Text.ConcatAppend`, `Text.ConcatStep` and `Text.ConcatAt` are its properties) |
| Text.ConcatAt | homepage.js:80-82 | each joined string sits at the position after all earlier ones |
| Text.NatToString | homepage.js:67 | the whole part `toFixed` prints: a non-empty digit string that starts with `0` only for 0 itself |
| Text.ParseNatToString | homepage.js:67 | the digits read back to the number (round trip) |
| Text.Contains | index-deno.js:31 | `s.includes(t)`: `t` occurs at some position of `s` (no contract of its own; `Text.ContainsAt` proves it equal to the positional definition) |
| Text.EndsWith | index-deno.js:44 | `s.endsWith(t)`: `s` is some text followed by `t` (no contract of its own; `Text.EndsWithTail` is its property) |
| HeaderRules.IsolationApplies | index-deno.js:29-33 | the paths that get the isolation headers: `/` and any path containing `.js`, `.html` or `.htm` (no contract of its own; `HeaderRules.HtmlTestRedundant` is its property) |
| HeaderRules.EncodingOf | index-deno.js:44-48 | the encoding is `br` iff the path ends with `.br`; any encoding is `br` or `gzip` |
| HeaderRules.ContentTypeOf | index-deno.js:50-62 | the type is `application/wasm` iff the path contains `.wasm`; a `.js` path without `.wasm` is `application/javascript` |
| HeaderRules.RuleValue | index-deno.js:29-62 | the value the rule block gives each header name for a path, or none (no contract of its own; `HeaderRules.RuleFields` sets exactly these values) |
| HeaderRules.IsolationFields | index-deno.js:29-38 | the three isolation headers with their fixed values, or none (no contract of its own; `HeaderRules.SetIsolationHeaders` adds exactly these) |
| HeaderRules.RuleFields | index-deno.js:29-62 | the headers the rules set are exactly the names whose rule fires, each with the value its rule gives |
| HeaderRules.HeaderMap.Set | index-deno.js:35 | `headers.set` replaces one header and keeps the others |
| HeaderRules.SetIsolationHeaders | index-deno.js:29-38 | the header object gains the three isolation headers when multithreading is on and the path qualifies, and is otherwise unchanged |
| HeaderRules.SetContentEncoding | index-deno.js:44-48 | the header object gains the encoding of the path's suffix, if it has one, and is otherwise unchanged |
| HeaderRules.SetContentType | index-deno.js:50-62 | the header object gains the type the substring chain selects, if any, and is otherwise unchanged |
| HeaderRules.ApplyRules | index-deno.js:27-62 | the header object after the rule block is the earlier headers overridden by the rule headers |
| HeaderRules.IsolationHeadersTogether | index-deno.js:29-38 | the three cross-origin headers are set together, iff multithreading is on and the path is `/` or contains `.js`, `.html` or `.htm`, with their fixed values |
| HeaderRules.HtmlTestRedundant | index-deno.js:29-33 | the `.html` test adds nothing to the `.htm` test |
| HeaderRules.EncodingsExclusive | index-deno.js:44-48 | no path ends with both `.br` and `.gz` |
| HeaderRules.EncodingBySuffix | index-deno.js:44-48 | `Content-Encoding` is `br` iff the path ends with `.br`, `gzip` iff it ends with `.gz`, and absent iff neither |
| HeaderRules.JsonBranchDead | index-deno.js:50-62 | the type chain equals the chain without its JSON test, and never yields `application/json` |
| HeaderRules.JsonServedAsJavascript | index.js:49-54 | a `.json` path without `.wasm` is typed `application/javascript` |
| HeaderRules.CompressedUnityAssets | index-deno.js:29-62 | compressed `.wasm` assets keep the wasm type with their encoding; compressed `.js` assets get an encoding, a type and the isolation headers |
| Homepage.DirSize | homepage.js:10-25 | the recursive size of a node: a directory's entries in order, each file's size, 0 for anything else (no contract of its own; `Homepage.DirSizeOfIntact` and `Homepage.DirSizeAtMostTotal` are its properties) |
| Homepage.SizeOfEntries | homepage.js:14-22 | the loop of `calculateDirSize` over one directory's entries, ending at the first failing `stat` (no contract of its own; see `Homepage.SizeStopsAtFailure`) |
| Homepage.CalculateDirSize | homepage.js:10-25 | the loop returns the recursive size of the directory, a natural number |
| Homepage.DirSizeOfIntact | homepage.js:10-25 | for a tree where every `stat` and `readdir` succeeds, the size is the sum of all file sizes under it |
| Homepage.DirSizeAtMostTotal | homepage.js:12-23 | swallowed errors only ever lose bytes: the size never exceeds the full sum |
| Homepage.SizeOfEntriesAppend | homepage.js:14-22 | the entries' sizes add up when the earlier entries all stat |
| Homepage.SizeStopsAtFailure | homepage.js:14-23 | an entry whose `stat` fails ends its directory's count: later siblings are not counted |
| Homepage.AddingFileGrowsSize | homepage.js:19-21 | adding a file after entries that all stat grows the size by the file's size |
| Homepage.HasServiceWorker | homepage.js:44 | `existsSync(join(itemPath, 'ServiceWorker.js'))` (no contract of its own; `Homepage.BuildsInMembership` uses it) |
| Homepage.IsBuild | homepage.js:43-44 | an entry becomes a build iff its `stat` says directory and it holds `ServiceWorker.js` (no contract of its own; `Homepage.BuildsInMembership` is its property) |
| Homepage.BuildOf | homepage.js:45-50 | the record pushed for a build: its name, `/Builds/<name>/` and its `calculateDirSize` (no contract of its own; `Homepage.BuildsInMembership` states the fields) |
| Homepage.BuildsIn | homepage.js:39-53 | the builds among the entries, in `readdir` order; never more builds than entries |
| Homepage.FoundBuilds | homepage.js:32-58 | the result of `scanBuilds`: the builds of a listable folder, `[]` for a missing or unlistable one (no contract of its own; `Homepage.ScanBuilds` returns it) |
| Homepage.ScanBuilds | homepage.js:32-59 | the loop returns exactly the builds the scan specifies, and `[]` when the builds folder is missing or unlistable |
| Homepage.BuildsInAppend | homepage.js:39-53 | the scan keeps `readdir` order: scanning two runs of entries gives their results in order |
| Homepage.BuildsInMembership | homepage.js:44-50 | a build is listed iff some entry is a directory holding `ServiceWorker.js`, with that entry's name, the path `/Builds/<name>/` and its size |
| Homepage.FailingEntrySkipped | homepage.js:42-52 | an entry whose `stat` fails is skipped and the scan continues |
| Homepage.Hundredths | homepage.js:67 | the hundredths of a MiB are the nearest to bytes / 2^20 |
| Homepage.FormatSizeToMB | homepage.js:66-68 | the text is a decimal numeral, a `.`, exactly two digits and `MB` |
| Homepage.FormatSizeReadsBack | homepage.js:66-68 | the digits of the text read back to the rounded hundredths |
| Homepage.BuildItem | homepage.js:81 | one build's list item: a link to its path with its name and formatted size (no contract of its own; `Homepage.BuildItems` and `Homepage.BuildsListItemAt` place it) |
| Homepage.BuildItems | homepage.js:80-82 | one list item per build, in input order |
| Homepage.BuildsList | homepage.js:75-85 | the build list: the "No builds available." paragraph for no builds, else a `<ul>` of the builds' items (no contract of its own; the next two lemmas are its properties) |
| Homepage.BuildsListEmptyIff | homepage.js:76-78 | the list is the "No builds available." paragraph iff there are no builds |
| Homepage.BuildsListItemAt | homepage.js:80-84 | a non-empty list is a `<ul>` with each build's item at its position |
| Homepage.GenerateHomepage | homepage.js:92-110 | the page wraps the list rendered from the scanned builds |
| Homepage.MarkerFileIsTheOnlySignal | homepage.js:44 | of a folder with `ServiceWorker.js` and one with only `TemplateData`, only the first is a build |
| HomepageDeno.FolderNames | homepage-deno.js:23-27 | the names of the directory entries, in `readDir` order (`HomepageDeno.FolderNamesMembership` and `HomepageDeno.FolderNamesAppend` are its properties) |
| HomepageDeno.FolderLink | homepage-deno.js:34 | one folder's list item, a link to `/Builds/<name>/` (no contract of its own; `HomepageDeno.FolderLinks` places it) |
| HomepageDeno.FolderLinks | homepage-deno.js:33-35 | one link per folder, to `/Builds/<name>/`, in order |
| HomepageDeno.NotFoundMessage | homepage-deno.js:45 | the not-found paragraph, naming the builds path (no contract of its own; `HomepageDeno.GenerateHomepage` selects it) |
| HomepageDeno.Links | homepage-deno.js:15-45 | the `buildLinks` text of each outcome: the three messages or the `<ul>` of folder links (no contract of its own; `HomepageDeno.GenerateHomepage` and `HomepageDeno.RenderFolderLinks` produce it) |
| HomepageDeno.HomepageHtml | homepage-deno.js:53-71 | the page: head, the `buildLinks` text of the builds path's outcome, tail (no contract of its own; `HomepageDeno.GenerateHomepage` returns it) |
| HomepageDeno.GenerateHomepage | homepage-deno.js:5-50 | the page's message is the one that the builds path's outcome selects |
| HomepageDeno.CollectFolders | homepage-deno.js:22-28 | the loop keeps exactly the directory entries, in `readDir` order |
| HomepageDeno.RenderFolderLinks | homepage-deno.js:31-36 | the loop renders a `<ul>` with one link per folder |
| HomepageDeno.FolderNamesAppend | homepage-deno.js:23-28 | folder collection keeps order across runs of entries |
| HomepageDeno.FolderNamesMembership | homepage-deno.js:23-28 | a name is collected iff some directory entry has it; other entries are ignored |
| HomepageDeno.OutcomeOf | homepage-deno.js:12-45 | which message the page shows for the builds path (no contract of its own; `HomepageDeno.OutcomeCases` is its property) |
| HomepageDeno.OutcomeCases | homepage-deno.js:12-45 | the outcome is "not found" iff `stat` or `readDir` fails, "not a directory" iff the path is something else, "no builds" iff there are no sub-folders, and otherwise lists them |
| ServerDeno.EntryLink | index-deno.js:176-178 | an entry's link: the URL path, the name and a `/` for directories, as both target and text (no contract of its own; `ServerDeno.ListingLinks` and `ServerDeno.ListingLinkReachesEntry` are its properties) |
| ServerDeno.ParentLinks | index-deno.js:171-173 | one parent link, to the path + `../`, unless the path is `/` |
| ServerDeno.EntryLinks | index-deno.js:175-179 | one link per entry, in `readDir` order (`ServerDeno.ListingLinks` states them) |
| ServerDeno.LinkItem | index-deno.js:172-178 | one `<li><a href=…>…</a></li>` item (no contract of its own; `ServerDeno.ListingItemsAreLinks` places it) |
| ServerDeno.LinkItems | index-deno.js:171-179 | one item per link, in order, each the link's item |
| ServerDeno.ParentItem | index-deno.js:172 | the parent link's item (no contract of its own; `ServerDeno.ListingItemsAreLinks` places it) |
| ServerDeno.ListingHead | index-deno.js:153-169 | the page head with the URL path in the title and heading (no contract of its own; `ServerDeno.GenerateDirectoryListing` starts with it) |
| ServerDeno.ErrorPage | index-deno.js:148-151 | the error page carrying the failure's message (no contract of its own; `ServerDeno.GenerateDirectoryListing` returns it when `readDir` fails) |
| ServerDeno.ListFailure | index-deno.js:145-150 | the message of `readDir`'s failure: the reason of a sealed or missing node, ENOTDIR otherwise (no contract of its own; used by `ServerDeno.ErrorPage`) |
| ServerDeno.ListingLinks | index-deno.js:171-179 | a parent link iff the path is not `/`, then one link per entry in order, with directories suffixed `/` |
| ServerDeno.ReadEntries | index-deno.js:142-147 | the loop collects every entry `readDir` yields, in order |
| ServerDeno.ListingHtml | index-deno.js:141-188 | for a slash-terminated path, the listing page: the head, the parent item unless the path is `/`, one item per entry, the tail; the error page for a directory that cannot be read (no contract of its own; `ServerDeno.GenerateDirectoryListing` is proved equal to it) |
| ServerDeno.GenerateDirectoryListing | index-deno.js:141-188 | the two loops build the listing page, or the error page with the failure's reason when the directory cannot be read |
| ServerDeno.AppendEntryItems | index-deno.js:175-179 | the loop renders one list item per entry |
| ServerDeno.ListingItemsAreLinks | index-deno.js:171-179 | the items the listing renders, the parent item if any and then the entries' items, are exactly its links in order |
| ServerDeno.IsPathname | index-deno.js:23-24 | a `url.pathname`: it starts with `/` and has no `.` or `..` components (no contract of its own; the precondition of `ServerDeno.Route`) |
| ServerDeno.Route | index-deno.js:65-138 | 200, 301 or 404; an existing file is 200 with its contents and the rule headers unchanged; 301 exactly for a directory without `/`, with `Location` = path + `/`; 404 exactly for what is neither file nor directory, as `text/plain` "Not Found"; headers other than the overridden one are kept |
| ServerDeno.CompressedWasmServed | index-deno.js:44-51 | an existing `.wasm.br` or `.wasm.gz` file is served with status 200, its contents, the matching `Content-Encoding` and `application/wasm` |
| ServerDeno.Handler | index-deno.js:22-138 | a response is the routing decision applied to the rule headers of its path |
| ServerDeno.RootIsHomepage | index-deno.js:65-74 | `/` is always a 200 `text/html` homepage |
| ServerDeno.DirectoryServedAsHtml | index-deno.js:101-121 | a slash-terminated directory is 200 `text/html`: its `index.html` if it is a file, else the listing |
| ServerDeno.RedirectTargetServed | index-deno.js:91-121 | the target of every redirect is served with 200 `text/html` |
| ServerDeno.ResolveAppend | index-deno.js:78 | resolving one more component looks it up in the node reached |
| ServerDeno.ListingLinkReachesEntry | index-deno.js:176-179 | following a listing link to an entry whose name has only URL-unreserved characters reaches that entry |
| ServerDeno.HomepageLinkReachesBuild | homepage-deno.js:34 | following a homepage link to a build folder whose name has only URL-unreserved characters reaches that folder, with status 200 |
| ServerDeno.SpreadThenAdd | index-deno.js:132-138 | the header record spread and re-parsed keeps an earlier value and appends the new one |
| ServerDeno.MissingScriptAsWritten | index-deno.js:132-138 | as written, a 404 for a script path carries `application/javascript, text/plain` |
| ServerDeno.MissingScriptIsScript | index-deno.js:50-53 | `/missing.js` is typed as a script by the rules |
| ServerDeno.MissingScriptNotFound | index-deno.js:81-138 | `/missing.js` below an empty tree is a 404 |
| ServerDeno.SpreadAgreesWhenUnset | index-deno.js:92-98 | the spread is harmless for `Location` and for paths that the rules give no type |
| ServerDeno.OverrideReplaces | index-deno.js:65-138 | with the override corrected, a 404 is `text/plain` and every HTML page is `text/html`, whatever the rules set |
| ServerNode.RequestHeaders.Delete | index.js:69 | `delete` removes one request header and keeps the rest |
| ServerNode.Truthy | index.js:65-66 | a header value JavaScript treats as true: present and non-empty (no contract of its own; `ServerNode.Revalidated` uses it) |
| ServerNode.NoCacheWithValidator | index.js:63-68 | the condition of the revalidation rule (no contract of its own; `ServerNode.Revalidated` is its property) |
| ServerNode.Revalidated | index.js:63-70 | `cache-control` is removed iff it is `no-cache` and a validator is present; no other request header changes; afterwards the condition no longer holds |
| ServerNode.RevalidatedIdempotent | index.js:63-70 | a second pass changes nothing |
| ServerNode.OnRequest | index.js:23-73 | the hook adds the rule headers of the URL to the reply and revalidates the request headers in place |
| ServerNode.BaseDir | index.js:19 | the base directory is the working directory iff a non-empty third argument is given, otherwise the script's directory |

## Findings

| source | as written | input that shows it | evidently intended | confidence | as-written member | corrected member |
|---|---|---|---|---|---|---|
| index-deno.js:132-138 | the 404 response rebuilds its headers from `{...Object.fromEntries(headers), "Content-Type": "text/plain"}`. The spread has the lower-case key `content-type`, a different property from `Content-Type`. The `Headers` constructor appends both, so the earlier type is kept (the same applies at lines 67-72, 105-111 and 115-121 for `text/html`) | `GET /missing.js` with no such file: `Content-Type: application/javascript, text/plain` | the response carries only `text/plain` (or `text/html`) | medium; the Fetch standard's header fill appends, not executed | ServerDeno.MissingScriptAsWritten | ServerDeno.OverrideReplaces |

`ServerDeno.Route` uses the corrected override, a plain map update.

## Left out

- Server plumbing is not modelled: Fastify and `@fastify/static`, Deno's `serve`, `listen`, `SIGINT` handling, `process.exit` and console logging. `index.js` routes only `/` itself and leaves static files to `@fastify/static`; that library is not part of this model.
- Real file I/O and `async`/`await` become the value tree. File contents are opaque: a served file is named by its path components.
- A file that `stat` accepts but `readFile` rejects is not modelled; such a file is treated as readable.
- A directory listing that starts and then fails part-way through `readDir` is modelled as a listing that fails at the start.
- Symbolic links are not modelled beyond a dangling link, which is `Unreadable`.
- A directory is either listable and searchable (`Dir`) or neither (`Sealed`). A folder that can be searched but not listed (execute-only) cannot be expressed: `homepage.js` would list such a build folder with size 0, and the Deno server would serve the files inside it. A folder that can be listed but not searched cannot be expressed either: Deno's `readDir` would still report its sub-folders as directories, and `stat` on its entries would fail.
- FileTree.Join: does not reproduce the text normalisation of Node's `join` (repeated `/`, `.` and `..` in `base`); the components it names agree with `join`'s for a base without `.` or `..` components.
- ServerDeno.ListingLinkReachesEntry: holds only for names made of URL-unreserved characters. A browser requests any other name percent-encoded (a space as `%20`), or cut at a `?` or `#`. The handler passes `url.pathname` to `join` without decoding it, so such a link is answered 404, and the model does not say so.
- ServerDeno.HomepageLinkReachesBuild: holds only for build folders named with URL-unreserved characters. The link to a folder such as `My Game` is requested as `/Builds/My%20Game/`, which the handler does not decode and answers 404.
- URL parsing is a precondition: `ServerDeno.Route` takes a pathname that starts with `/` and has no `.` or `..` components. Percent-encoding is not modelled; path components are taken as the file names.
- HTML escaping: names are inserted verbatim, as in the code.
- The CSS and the layout whitespace of the pages are abbreviated to the tags that carry content.
- `Homepage.FormatSizeToMB` is modelled in exact integer hundredths, ties rounding up. JavaScript's double rounding for sizes above 2^53 bytes is not modelled.
- The script-directory resolution (`import.meta.url`, `__dirname`) becomes a parameter of `ServerNode.BaseDir` and of the Deno routing.
- The outer "Error loading builds" catch of `homepage-deno.js` (lines 47-50) only catches failures of the logging calls, so it is not modelled.
- The branch of `generateDirectoryListing` for a path without a trailing `/` (line 172) names an undefined variable. `ServerDeno.ListingHtml` and `ServerDeno.GenerateDirectoryListing` require a slash-terminated path, and `ServerDeno.Route` calls `ListingHtml` only after redirecting every other directory path, so the handler never reaches that branch.
