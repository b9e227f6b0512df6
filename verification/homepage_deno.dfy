/**
 * `homepage-deno.js`, the Deno server's homepage: one link per subdirectory of
 * `Builds`, or a message saying why there is none.
 */
module HomepageDeno {
  import opened Text
  import opened FileTree

  /** Which of the four messages, or which list of links, the page shows. */
  datatype Outcome = NotFound | NotADirectory | NoBuilds | BuildFolders(folders: seq<string>)

  /**
   * The names `readDir` reports as directories, in its order. `readDir` takes
   * the kind from the directory entry itself, so a sub-folder that cannot be
   * opened (`Sealed`) is still a directory, and a dangling link (`Unreadable`)
   * is not.
   */
  function FolderNames(es: seq<Entry>): (names: seq<string>)
    ensures |names| <= |es|
  {
    if es == [] then []
    else (if IsDirectory(es[0].node) then [es[0].name] else []) + FolderNames(es[1..])
  }

  /**
   * The outcome for the node at the builds path: `stat` failing or `readDir`
   * failing both land in the same catch.
   */
  function OutcomeOf(buildsDir: Node): Outcome
  {
    match buildsDir
    case Unreadable(_) => NotFound
    case Sealed(_) => NotFound
    case File(_) => NotADirectory
    case Special(_) => NotADirectory
    case Dir(es) => if FolderNames(es) == [] then NoBuilds else BuildFolders(FolderNames(es))
  }

  function FolderLink(folder: string): string
  {
    "<li><a href=\"/Builds/" + folder + "/\">" + folder + "</a></li>"
  }

  function FolderLinks(folders: seq<string>): (links: seq<string>)
    ensures |links| == |folders|
    ensures forall i :: 0 <= i < |folders| ==> links[i] == FolderLink(folders[i])
  {
    seq(|folders|, i requires 0 <= i < |folders| => FolderLink(folders[i]))
  }

  const NotADirectoryMessage := "<p>Builds path exists but is not a directory. Please create a \"Builds\" directory.</p>"
  const NoBuildsMessage := "<p>No builds available. Copy your builds as \"Builds\" directory subfolders.</p>"

  function NotFoundMessage(buildsDirPath: string): string
  {
    "<p>Builds directory not found at \"" + buildsDirPath + "\". Create a \"Builds\" directory in the root folder.</p>"
  }

  /** The `buildLinks` text of an outcome. */
  function Links(o: Outcome, buildsDirPath: string): string
  {
    match o
    case NotFound => NotFoundMessage(buildsDirPath)
    case NotADirectory => NotADirectoryMessage
    case NoBuilds => NoBuildsMessage
    case BuildFolders(folders) => "<ul>" + Concat(FolderLinks(folders)) + "</ul>"
  }

  const PageHead := "<html><head><title>Unity WebGL Builds</title></head><body><h1>Unity WebGL Builds</h1>"
  const PageTail := "</body></html>"

  /** The page served at `/`. */
  function HomepageHtml(buildsDirPath: string, buildsDir: Node): string
  {
    PageHead + Links(OutcomeOf(buildsDir), buildsDirPath) + PageTail
  }

  method GenerateHomepage(buildsDirPath: string, buildsDir: Node) returns (html: string)
    ensures html == HomepageHtml(buildsDirPath, buildsDir)
  {
    var buildLinks := "";
    if !Exists(buildsDir) {
      buildLinks := NotFoundMessage(buildsDirPath);
    } else if !IsDirectory(buildsDir) {
      buildLinks := NotADirectoryMessage;
    } else if buildsDir.Sealed? {
      buildLinks := NotFoundMessage(buildsDirPath);
    } else {
      var entries := CollectFolders(buildsDir.entries);
      if |entries| > 0 {
        buildLinks := RenderFolderLinks(entries);
      } else {
        buildLinks := NoBuildsMessage;
      }
    }
    html := PageHead + buildLinks + PageTail;
  }

  /** The `readDir` loop: keep the names of directory entries. */
  method CollectFolders(items: seq<Entry>) returns (entries: seq<string>)
    ensures entries == FolderNames(items)
  {
    entries := [];
    var i := 0;
    while i < |items|
      invariant 0 <= i <= |items|
      invariant entries + FolderNames(items[i..]) == FolderNames(items)
    {
      assert items[i..][1..] == items[i + 1..];
      if IsDirectory(items[i].node) {
        entries := entries + [items[i].name];
      }
      i := i + 1;
    }
    assert items[i..] == [];
  }

  /** The link loop: `<ul>`, one item per folder, `</ul>`. */
  method RenderFolderLinks(entries: seq<string>) returns (buildLinks: string)
    ensures buildLinks == "<ul>" + Concat(FolderLinks(entries)) + "</ul>"
  {
    var links := FolderLinks(entries);
    buildLinks := "<ul>";
    var j := 0;
    while j < |entries|
      invariant 0 <= j <= |entries|
      invariant buildLinks == "<ul>" + Concat(links[..j])
    {
      ConcatStep(links, j);
      buildLinks := buildLinks + FolderLink(entries[j]);
      j := j + 1;
    }
    assert links[..j] == links;
    buildLinks := buildLinks + "</ul>";
  }

  /** Listing a directory split in two lists each part in turn: `readDir` order is kept. */
  lemma {:induction false} FolderNamesAppend(a: seq<Entry>, b: seq<Entry>)
    ensures FolderNames(a + b) == FolderNames(a) + FolderNames(b)
    decreases |a|
  {
    if a == [] {
      assert a + b == b;
    } else {
      var head := if IsDirectory(a[0].node) then [a[0].name] else [];
      assert (a + b)[0] == a[0];
      assert (a + b)[1..] == a[1..] + b;
      assert FolderNames(a + b) == head + FolderNames(a[1..] + b);
      FolderNamesAppend(a[1..], b);
      var rest, tail := FolderNames(a[1..]), FolderNames(b);
      assert head + (rest + tail) == (head + rest) + tail;
    }
  }

  /** A name is linked iff it names a directory entry. */
  lemma {:induction false} FolderNamesMembership(es: seq<Entry>, name: string)
    ensures name in FolderNames(es) <==> exists i :: 0 <= i < |es| && IsDirectory(es[i].node) && es[i].name == name
    decreases |es|
  {
    if es != [] {
      FolderNamesMembership(es[1..], name);
      if exists i :: 0 <= i < |es[1..]| && IsDirectory(es[1..][i].node) && es[1..][i].name == name {
        var i :| 0 <= i < |es[1..]| && IsDirectory(es[1..][i].node) && es[1..][i].name == name;
        assert es[i + 1] == es[1..][i];
      }
      if i :| 0 <= i < |es| && IsDirectory(es[i].node) && es[i].name == name {
        if i > 0 {
          assert es[1..][i - 1] == es[i];
        }
      }
    }
  }

  /** Which message the page shows, by what `stat` and `readDir` report for the builds path. */
  lemma OutcomeCases(buildsDir: Node)
    ensures OutcomeOf(buildsDir) == NotFound <==> !Exists(buildsDir) || buildsDir.Sealed?
    ensures OutcomeOf(buildsDir) == NotADirectory <==> Exists(buildsDir) && !IsDirectory(buildsDir)
    ensures OutcomeOf(buildsDir) == NoBuilds <==>
      buildsDir.Dir? && forall i :: 0 <= i < |buildsDir.entries| ==> !IsDirectory(buildsDir.entries[i].node)
    ensures OutcomeOf(buildsDir).BuildFolders? ==>
      buildsDir.Dir? && OutcomeOf(buildsDir).folders == FolderNames(buildsDir.entries) && OutcomeOf(buildsDir).folders != []
  {
    if buildsDir.Dir? {
      var es := buildsDir.entries;
      if FolderNames(es) == [] {
        forall i | 0 <= i < |es| ensures !IsDirectory(es[i].node) {
          FolderNamesMembership(es, es[i].name);
        }
      } else {
        var name := FolderNames(es)[0];
        FolderNamesMembership(es, name);
      }
    }
  }
}
