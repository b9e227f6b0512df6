/**
 * `index-deno.js`: the Deno server's request handler. The header rules are
 * applied first; the path then decides between the homepage, a file, a
 * redirect to the slash-terminated directory path, the directory's
 * `index.html` or a generated listing, and `404 Not Found`.
 */
module ServerDeno {
  import opened Options
  import opened Text
  import opened FileTree
  import opened HeaderRules
  import HomepageDeno

  const EnableCors := false
  const EnableWasmMultithreading := true

  datatype Body =
    | NoBody
    | Html(html: string)
    | PlainText(text: string)
    | FileContents(file: seq<string>)  // the bytes of the file at these path components

  datatype Response = Response(status: nat, headers: Fields, body: Body)

  /** A URL pathname: it starts with `/`, and the URL parser has removed `.` and `..` components. */
  predicate IsPathname(path: string)
  {
    |path| > 0 && path[0] == '/' && forall s :: s in Segments(path) ==> s != "." && s != ".."
  }

  /**
   * A file name a browser requests exactly as written: every character is
   * unreserved in a URL path (section 2.3 of RFC 3986), so nothing is
   * percent-encoded and nothing starts a query or a fragment.
   */
  predicate UrlSafe(name: string)
  {
    forall i :: 0 <= i < |name| ==>
      ('a' <= name[i] <= 'z') || ('A' <= name[i] <= 'Z') || ('0' <= name[i] <= '9') ||
      name[i] == '-' || name[i] == '.' || name[i] == '_' || name[i] == '~'
  }

  // generateDirectoryListing

  datatype Link = Link(href: string, caption: string)

  /** An entry's link: directories get a final `/` in both the target and the text. */
  function EntryLink(urlPath: string, e: Entry): Link
  {
    var suffix := if IsDirectory(e.node) then "/" else "";
    Link(urlPath + e.name + suffix, e.name + suffix)
  }

  /** The parent link, present except at `/`. */
  function ParentLinks(urlPath: string): (links: seq<Link>)
    requires EndsWith(urlPath, "/")
    ensures |links| == (if urlPath != "/" then 1 else 0)
  {
    if urlPath != "/" then [Link(urlPath + "../", "Parent Directory")] else []
  }

  /** One link per entry, in `readDir` order. */
  function EntryLinks(urlPath: string, es: seq<Entry>): (links: seq<Link>)
    ensures |links| == |es|
    ensures forall k :: 0 <= k < |es| ==> links[k] == EntryLink(urlPath, es[k])
  {
    seq(|es|, k requires 0 <= k < |es| => EntryLink(urlPath, es[k]))
  }

  /** The links of a listing: the parent link, then the entries. */
  function ListingLinks(urlPath: string, es: seq<Entry>): (links: seq<Link>)
    requires EndsWith(urlPath, "/")
    ensures |links| == |es| + (if urlPath != "/" then 1 else 0)
    ensures urlPath != "/" ==> links[0] == Link(urlPath + "../", "Parent Directory")
    ensures var first := if urlPath != "/" then 1 else 0;
      forall k :: 0 <= k < |es| ==> links[first + k] == EntryLink(urlPath, es[k])
  {
    var parent := ParentLinks(urlPath);
    var entries := EntryLinks(urlPath, es);
    assert forall k :: 0 <= k < |es| ==> (parent + entries)[|parent| + k] == entries[k];
    parent + entries
  }

  function LinkItem(l: Link): string
  {
    "<li><a href=\"" + l.href + "\">" + l.caption + "</a></li>"
  }

  function LinkItems(links: seq<Link>): (items: seq<string>)
    ensures |items| == |links|
    ensures forall k :: 0 <= k < |links| ==> items[k] == LinkItem(links[k])
  {
    seq(|links|, k requires 0 <= k < |links| => LinkItem(links[k]))
  }

  function ListingHead(urlPath: string): string
  {
    "<html><head><title>Directory Listing: " + urlPath + "</title></head><body><h1>Directory Listing: "
    + urlPath + "</h1><ul>"
  }

  const ListingTail := "</ul></body></html>"

  function ErrorPage(reason: string): string
  {
    "<html><body><h1>Error reading directory</h1><p>" + reason + "</p></body></html>"
  }

  /** Why `readDir` fails on a node that is not a listable directory. */
  function ListFailure(n: Node): string
  {
    match n
    case Sealed(reason) => reason
    case Unreadable(reason) => reason
    case _ => NotADirectory
  }

  /** The list item of the parent link. */
  function ParentItem(urlPath: string): string
  {
    LinkItem(Link(urlPath + "../", "Parent Directory"))
  }

  /** The page `generateDirectoryListing` returns. */
  function ListingHtml(dir: Node, urlPath: string): string
    requires EndsWith(urlPath, "/")
  {
    if dir.Dir? then
      ListingHead(urlPath) + (if urlPath != "/" then ParentItem(urlPath) else "")
      + Concat(LinkItems(EntryLinks(urlPath, dir.entries))) + ListingTail
    else ErrorPage(ListFailure(dir))
  }

  /** Only a slash-terminated `urlPath` is handled: the other branch names an unbound variable. */
  method GenerateDirectoryListing(dir: Node, urlPath: string) returns (html: string)
    requires EndsWith(urlPath, "/")
    ensures html == ListingHtml(dir, urlPath)
  {
    if !dir.Dir? {
      return ErrorPage(ListFailure(dir));
    }
    var entries := ReadEntries(dir.entries);
    html := ListingHead(urlPath);
    if urlPath != "/" {
      html := html + ParentItem(urlPath);
    }
    var listed := AppendEntryItems(urlPath, entries);
    html := html + listed + ListingTail;
  }

  /** The `readDir` loop that copies every entry. */
  method ReadEntries(items: seq<Entry>) returns (entries: seq<Entry>)
    ensures entries == items
  {
    entries := [];
    var i := 0;
    while i < |items|
      invariant 0 <= i <= |items|
      invariant entries == items[..i]
    {
      entries := entries + [items[i]];
      i := i + 1;
    }
  }

  /** The loop that renders one list item per entry. */
  method AppendEntryItems(urlPath: string, entries: seq<Entry>) returns (listed: string)
    ensures listed == Concat(LinkItems(EntryLinks(urlPath, entries)))
  {
    var items := LinkItems(EntryLinks(urlPath, entries));
    listed := "";
    var k := 0;
    while k < |entries|
      invariant 0 <= k <= |entries|
      invariant listed == Concat(items[..k])
    {
      ConcatStep(items, k);
      listed := listed + LinkItem(EntryLink(urlPath, entries[k]));
      k := k + 1;
    }
    assert items[..k] == items;
  }

  /** The listing's items render exactly its links, in order. */
  lemma ListingItemsAreLinks(urlPath: string, es: seq<Entry>)
    requires EndsWith(urlPath, "/")
    ensures (if urlPath != "/" then ParentItem(urlPath) else "") + Concat(LinkItems(EntryLinks(urlPath, es)))
            == Concat(LinkItems(ListingLinks(urlPath, es)))
  {
    var parent := ParentLinks(urlPath);
    var entries := EntryLinks(urlPath, es);
    assert ListingLinks(urlPath, es) == parent + entries;
    assert LinkItems(parent + entries) == LinkItems(parent) + LinkItems(entries);
    ConcatAppend(LinkItems(parent), LinkItems(entries));
  }

  // handler

  /** Deno's handler, with the Content-Type override corrected (see `SpreadThenAdd`). */
  function Route(root: Node, baseDir: string, path: string, h: Fields): (r: Response)
    requires IsPathname(path)
    ensures r.status == 200 || r.status == 301 || r.status == 404
    ensures r.status == 301 <==> path != "/" && IsDirectory(StatPath(root, path)) && !EndsWith(path, "/")
    ensures r.status == 404 <==> path != "/" && !StatPath(root, path).File? && !IsDirectory(StatPath(root, path))
    ensures path != "/" && StatPath(root, path).File? ==> r == Response(200, h, FileContents(Segments(path)))
    ensures r.status == 301 ==> r.headers == h[Location := path + "/"] && r.body == NoBody
    ensures r.status == 404 ==> r.headers == h[ContentType := "text/plain"] && r.body == PlainText("Not Found")
    ensures forall n :: n != ContentType && n != Location ==> (n in r.headers <==> n in h)
    ensures forall n :: n != ContentType && n != Location && n in h ==> r.headers[n] == h[n]
  {
    if path == "/" then
      Response(200, h[ContentType := "text/html"],
               Html(HomepageDeno.HomepageHtml(BuildsDir(baseDir), Child(root, "Builds"))))
    else
      var n := StatPath(root, path);
      if n.File? then Response(200, h, FileContents(Segments(path)))
      else if IsDirectory(n) then
        if !EndsWith(path, "/") then Response(301, h[Location := path + "/"], NoBody)
        else if Child(n, "index.html").File? then
          Response(200, h[ContentType := "text/html"], FileContents(Segments(path) + ["index.html"]))
        else Response(200, h[ContentType := "text/html"], Html(ListingHtml(n, path)))
      else Response(404, h[ContentType := "text/plain"], PlainText("Not Found"))
  }

  /** `handler(req)` for a request whose URL has pathname `path`. */
  method Handler(root: Node, baseDir: string, path: string) returns (r: Response)
    requires IsPathname(path)
    ensures r == Route(root, baseDir, path, RuleFields(path, EnableWasmMultithreading, EnableCors))
  {
    var headers := new HeaderMap();
    ApplyRules(path, EnableWasmMultithreading, EnableCors, headers);
    assert headers.fields == RuleFields(path, EnableWasmMultithreading, EnableCors);
    r := Route(root, baseDir, path, headers.fields);
  }

  /**
   * A pre-compressed WebAssembly file of a build is served whole, marked with
   * its compression and as WebAssembly, so a browser can decode and compile it.
   */
  lemma CompressedWasmServed(root: Node, baseDir: string, stem: string, path: string)
    requires path == stem + ".wasm.br" || path == stem + ".wasm.gz"
    requires IsPathname(path) && StatPath(root, path).File?
    ensures var r := Route(root, baseDir, path, RuleFields(path, EnableWasmMultithreading, EnableCors));
      r.status == 200 && r.body == FileContents(Segments(path)) &&
      ContentEncoding in r.headers && r.headers[ContentEncoding] == (if path == stem + ".wasm.br" then "br" else "gzip") &&
      ContentType in r.headers && r.headers[ContentType] == Wasm
  {
    CompressedUnityAssets(stem, EnableWasmMultithreading, EnableCors);
    assert path != "/" by { assert |path| > 1; }
  }

  /** `/` is always the generated homepage, served as HTML. */
  lemma RootIsHomepage(root: Node, baseDir: string, h: Fields)
    ensures IsPathname("/")
    ensures var r := Route(root, baseDir, "/", h);
      r.status == 200 && r.headers[ContentType] == "text/html" &&
      r.body == Html(HomepageDeno.HomepageHtml(BuildsDir(baseDir), Child(root, "Builds")))
  {
    assert Segments("/") == Split("", "");
  }

  /** A slash-terminated directory path is served as HTML: its `index.html` if it has one, else a listing. */
  lemma DirectoryServedAsHtml(root: Node, baseDir: string, path: string, h: Fields)
    requires IsPathname(path) && path != "/" && EndsWith(path, "/") && IsDirectory(StatPath(root, path))
    ensures var r := Route(root, baseDir, path, h);
      r.status == 200 && r.headers[ContentType] == "text/html" &&
      (Child(StatPath(root, path), "index.html").File? ==> r.body == FileContents(Segments(path) + ["index.html"])) &&
      (!Child(StatPath(root, path), "index.html").File? ==> r.body == Html(ListingHtml(StatPath(root, path), path)))
  {
  }

  lemma {:induction false} ResolveAppend(n: Node, segs: seq<string>, name: string)
    ensures Resolve(n, segs + [name]) == Child(Resolve(n, segs), name)
    decreases |segs|
  {
    if segs == [] {
      assert segs + [name] == [name];
    } else {
      assert (segs + [name])[1..] == segs[1..] + [name];
      ResolveAppend(Child(n, segs[0]), segs[1..], name);
    }
  }

  /** Following an entry's link from a listing reaches that entry. */
  lemma ListingLinkReachesEntry(root: Node, urlPath: string, k: nat)
    requires EndsWith(urlPath, "/") && StatPath(root, urlPath).Dir?
    requires var es := StatPath(root, urlPath).entries;
      k < |es| && IsName(es[k].name) && UrlSafe(es[k].name) &&
      forall j :: 0 <= j < k ==> es[j].name != es[k].name
    ensures var es := StatPath(root, urlPath).entries;
      StatPath(root, EntryLink(urlPath, es[k]).href) == es[k].node
  {
    var es := StatPath(root, urlPath).entries;
    var e := es[k];
    var dirSegs := Segments(urlPath);
    SegmentsAppendName(urlPath, e.name);
    ResolveAppend(root, dirSegs, e.name);
    assert Resolve(root, dirSegs) == Dir(es);
    assert Child(Dir(es), e.name) == e.node;
    var href := EntryLink(urlPath, e).href;
    if IsDirectory(e.node) {
      assert href == (urlPath + e.name) + "/";
      SegmentsTrailingSlash(urlPath + e.name);
    } else {
      assert href == urlPath + e.name;
      var last := |href| - 1;
      assert e.name[|e.name| - 1] != '/';
      assert href[last] == e.name[|e.name| - 1];
      assert href[last..] != "/" by { assert href[last..][0] == href[last]; }
      assert !EndsWith(href, "/");
    }
  }

  /** Following a homepage link reaches that build folder, served with status 200. */
  lemma HomepageLinkReachesBuild(root: Node, baseDir: string, k: nat, h: Fields)
    requires Child(root, "Builds").Dir?
    requires var es := Child(root, "Builds").entries;
      k < |es| && IsDirectory(es[k].node) && IsName(es[k].name) && UrlSafe(es[k].name) &&
      forall j :: 0 <= j < k ==> es[j].name != es[k].name
    ensures var es := Child(root, "Builds").entries;
      var link := "/Builds/" + es[k].name + "/";
      IsPathname(link) && StatPath(root, link) == es[k].node && Route(root, baseDir, link, h).status == 200
  {
    var es := Child(root, "Builds").entries;
    var name := es[k].name;
    BuildLinkSegments(name);
    assert Resolve(root, ["Builds", name]) == Resolve(Child(root, "Builds"), [name]);
    assert Child(Dir(es), name) == es[k].node;
  }

  /** The homepage link of a build folder is a pathname naming `Builds` and the folder. */
  lemma BuildLinkSegments(name: string)
    requires IsName(name)
    ensures var link := "/Builds/" + name + "/";
      Segments(link) == ["Builds", name] && EndsWith(link, "/") && IsPathname(link)
  {
    var link := "/Builds/" + name + "/";
    assert IsName("Builds");
    SegmentsOfPath(["Builds", name]);
    assert PathOf(["Builds", name]) == "/Builds/" + name by {
      assert PathOf([name]) == "/" + name + PathOf([]);
    }
    SegmentsTrailingSlash("/Builds/" + name);
    EndsWithTail("/Builds/" + name, "/");
  }

  /** A redirect's target is served: the directory, with the slash, is a 200 HTML page. */
  lemma RedirectTargetServed(root: Node, baseDir: string, path: string, h: Fields, h': Fields)
    requires IsPathname(path) && Route(root, baseDir, path, h).status == 301
    ensures IsPathname(path + "/")
    ensures var r := Route(root, baseDir, path + "/", h');
      r.status == 200 && r.headers[ContentType] == "text/html"
  {
    SegmentsTrailingSlash(path);
    EndsWithTail(path, "/");
    assert (path + "/")[0] == '/';
    assert StatPath(root, path + "/") == Resolve(root, Segments(path));
  }

  // The override of Content-Type, as written.

  /**
   * `new Headers({...Object.fromEntries(headers), "Content-Type": v})`: the spread
   * gives the lower-case key `content-type`, a different property from
   * `Content-Type`, and the constructor appends both, so an earlier value is
   * kept and joined with the new one.
   */
  function SpreadThenAdd(h: Fields, n: HeaderName, v: string): (r: Fields)
    ensures n in r && (n in h ==> r[n] == h[n] + ", " + v) && (n !in h ==> r[n] == v)
    ensures forall m :: m != n ==> (m in r <==> m in h) && (m in h ==> r[m] == h[m])
  {
    if n in h then h[n := h[n] + ", " + v] else h[n := v]
  }

  /** As written, a missing script is answered with two content types instead of `text/plain`. */
  lemma MissingScriptAsWritten(path: string, multithreading: bool, cors: bool)
    requires ContentTypeOf(path) == Some(Javascript)
    ensures SpreadThenAdd(RuleFields(path, multithreading, cors), ContentType, "text/plain")[ContentType]
            == "application/javascript, text/plain"
  {
  }

  /** `/missing.js` is such a path: its rules give it the JavaScript type. */
  lemma MissingScriptIsScript()
    ensures ContentTypeOf("/missing.js") == Some(Javascript)
  {
    ContainsTail("/missing", ".js");
    assert "/missing" + ".js" == "/missing.js";
    CharsOfContained("/missing.js", ".wasm", 'w');
  }

  /** ... and a tree without it answers `/missing.js` with 404. */
  lemma MissingScriptNotFound(baseDir: string, h: Fields)
    ensures IsPathname("/missing.js") && Route(Dir([]), baseDir, "/missing.js", h).status == 404
  {
    assert IsName("missing.js");
    SingleNamePath("missing.js");
    assert "/" + "missing.js" == "/missing.js";
    assert Resolve(Dir([]), ["missing.js"]) == Resolve(Unreadable(NoSuchEntry), []);
  }

  /** A path of one file name names that entry of the root. */
  lemma SingleNamePath(name: string)
    requires IsName(name)
    ensures Segments("/" + name) == [name]
    ensures !EndsWith("/" + name, "/") && IsPathname("/" + name)
  {
    SegmentsOfPath([name]);
    assert PathOf([name]) == "/" + name by {
      assert PathOf([name]) == "/" + name + PathOf([]);
      assert "/" + name + "" == "/" + name;
    }
    var path := "/" + name;
    assert path[|path| - 1] == name[|name| - 1];
    assert path[|path| - 1..] != "/" by { assert path[|path| - 1..][0] == path[|path| - 1]; }
  }

  /** The spread is harmless where the rules left the header unset: redirects, and paths without a rule type. */
  lemma SpreadAgreesWhenUnset(path: string, multithreading: bool, cors: bool, v: string)
    ensures var f := RuleFields(path, multithreading, cors);
      SpreadThenAdd(f, Location, v) == f[Location := v] &&
      (ContentTypeOf(path) == None ==> SpreadThenAdd(f, ContentType, v) == f[ContentType := v])
  {
    var f := RuleFields(path, multithreading, cors);
    assert Location !in f;
  }

  /** With the override corrected, every 404 and every HTML page carries exactly one content type. */
  lemma OverrideReplaces(root: Node, baseDir: string, path: string, multithreading: bool, cors: bool)
    requires IsPathname(path)
    ensures var r := Route(root, baseDir, path, RuleFields(path, multithreading, cors));
      (r.status == 404 ==> r.headers[ContentType] == "text/plain") &&
      (r.body.Html? ==> r.headers[ContentType] == "text/html")
  {
  }
}
