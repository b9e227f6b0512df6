/**
 * `homepage.js`, the Node server's homepage: the immediate subdirectories of
 * `Builds` that hold a `ServiceWorker.js`, each with the total size of its files.
 */
module Homepage {
  import opened Text
  import opened FileTree

  /** One homepage entry: `{ name, path, size }`. */
  datatype Build = Build(name: string, path: string, size: nat)

  // calculateDirSize

  /** What `calculateDirSize` returns: a node that cannot be listed gives 0. */
  function DirSize(n: Node): nat
    decreases n
  {
    if n.Dir? then SizeOfEntries(n.entries) else 0
  }

  /**
   * The running total over the entries in order. The first entry whose `stat`
   * fails throws out of the loop, so it and every later sibling add nothing.
   */
  function SizeOfEntries(es: seq<Entry>): nat
    decreases es
  {
    if es == [] || es[0].node.Unreadable? then 0
    else
      (if IsDirectory(es[0].node) then DirSize(es[0].node) else es[0].node.size)
      + SizeOfEntries(es[1..])
  }

  method CalculateDirSize(dir: Node) returns (total: nat)
    ensures total == DirSize(dir)
    decreases dir
  {
    total := 0;
    if !dir.Dir? {
      return;
    }
    var items := dir.entries;
    var i := 0;
    while i < |items|
      invariant 0 <= i <= |items|
      invariant total + SizeOfEntries(items[i..]) == SizeOfEntries(items)
    {
      var item := items[i].node;
      assert items[i..][1..] == items[i + 1..];
      if item.Unreadable? {
        break;
      }
      if IsDirectory(item) {
        var sub := CalculateDirSize(item);
        total := total + sub;
      } else {
        total := total + item.size;
      }
      i := i + 1;
    }
  }

  /** The sum of the sizes of every file below `n`, the total the walk intends to compute. */
  function TotalSize(n: Node): nat
    decreases n
  {
    match n
    case File(size) => size
    case Special(size) => size
    case Dir(es) => TotalOfEntries(es)
    case _ => 0
  }

  function TotalOfEntries(es: seq<Entry>): nat
    decreases es
  {
    if es == [] then 0 else TotalSize(es[0].node) + TotalOfEntries(es[1..])
  }

  /** Every `stat` and `readdir` below `n` succeeds. */
  predicate Intact(n: Node)
    decreases n
  {
    match n
    case Dir(es) => EntriesIntact(es)
    case Sealed(_) => false
    case Unreadable(_) => false
    case _ => true
  }

  predicate EntriesIntact(es: seq<Entry>)
    decreases es
  {
    es == [] || (Intact(es[0].node) && EntriesIntact(es[1..]))
  }

  /** On a directory whose every entry can be read, the walk sums every file below it. */
  lemma {:induction false} DirSizeOfIntact(n: Node)
    requires n.Dir? && Intact(n)
    ensures DirSize(n) == TotalSize(n)
    decreases n, 1
  {
    SizeOfIntactEntries(n.entries);
  }

  lemma {:induction false} SizeOfIntactEntries(es: seq<Entry>)
    requires EntriesIntact(es)
    ensures SizeOfEntries(es) == TotalOfEntries(es)
    decreases es, 0
  {
    if es != [] {
      if es[0].node.Dir? {
        DirSizeOfIntact(es[0].node);
      }
      SizeOfIntactEntries(es[1..]);
    }
  }

  /** A failure never adds anything: the walk's result is at most the sum of the files below. */
  lemma {:induction false} DirSizeAtMostTotal(n: Node)
    ensures DirSize(n) <= TotalSize(n)
    decreases n, 1
  {
    if n.Dir? {
      SizeOfEntriesAtMostTotal(n.entries);
    }
  }

  lemma {:induction false} SizeOfEntriesAtMostTotal(es: seq<Entry>)
    ensures SizeOfEntries(es) <= TotalOfEntries(es)
    decreases es, 0
  {
    if es != [] && !es[0].node.Unreadable? {
      DirSizeAtMostTotal(es[0].node);
      SizeOfEntriesAtMostTotal(es[1..]);
    }
  }

  /** No entry in `es` fails `stat`. */
  predicate AllStat(es: seq<Entry>)
  {
    forall i :: 0 <= i < |es| ==> Exists(es[i].node)
  }

  /** Sizes add up over a listing split in two, provided the first part has no failing entry. */
  lemma {:induction false} SizeOfEntriesAppend(a: seq<Entry>, b: seq<Entry>)
    requires AllStat(a)
    ensures SizeOfEntries(a + b) == SizeOfEntries(a) + SizeOfEntries(b)
    decreases |a|
  {
    if a == [] {
      assert a + b == b;
    } else {
      assert (a + b)[1..] == a[1..] + b;
      SizeOfEntriesAppend(a[1..], b);
    }
  }

  /** An entry whose `stat` fails ends its directory's total: later siblings are not counted. */
  lemma {:induction false} SizeStopsAtFailure(a: seq<Entry>, name: string, reason: string, b: seq<Entry>)
    ensures SizeOfEntries(a + [Entry(name, Unreadable(reason))] + b) == SizeOfEntries(a)
    decreases |a|
  {
    var es := a + [Entry(name, Unreadable(reason))] + b;
    if a == [] {
      assert es[0].node.Unreadable?;
    } else {
      assert es[1..] == a[1..] + [Entry(name, Unreadable(reason))] + b;
      SizeStopsAtFailure(a[1..], name, reason, b);
    }
  }

  /** Adding a file of `size` bytes to a directory with no failing entry grows its total by exactly `size`. */
  lemma AddingFileGrowsSize(es: seq<Entry>, name: string, size: nat)
    requires AllStat(es)
    ensures DirSize(Dir(es + [Entry(name, File(size))])) == DirSize(Dir(es)) + size
  {
    SizeOfEntriesAppend(es, [Entry(name, File(size))]);
  }

  // scanBuilds

  /** `existsSync(join(dir, 'ServiceWorker.js'))`. */
  predicate HasServiceWorker(dir: Node)
  {
    Exists(Child(dir, "ServiceWorker.js"))
  }

  /** The entry is pushed: `stat` succeeds, it is a directory, and it holds the marker file. */
  predicate IsBuild(e: Entry)
  {
    IsDirectory(e.node) && HasServiceWorker(e.node)
  }

  function BuildOf(e: Entry): Build
  {
    Build(e.name, "/Builds/" + e.name + "/", DirSize(e.node))
  }

  /** The builds among `es`, in `readdir` order. */
  function BuildsIn(es: seq<Entry>): (bs: seq<Build>)
    ensures |bs| <= |es|
  {
    if es == [] then []
    else (if IsBuild(es[0]) then [BuildOf(es[0])] else []) + BuildsIn(es[1..])
  }

  /**
   * What `scanBuilds` returns for the node at the builds path: nothing when it is
   * missing or cannot be listed.
   */
  function FoundBuilds(buildsDir: Node): seq<Build>
  {
    if buildsDir.Dir? then BuildsIn(buildsDir.entries) else []
  }

  method ScanBuilds(buildsDir: Node) returns (builds: seq<Build>)
    ensures builds == FoundBuilds(buildsDir)
    ensures !buildsDir.Dir? ==> builds == []
  {
    if !Exists(buildsDir) {
      return [];
    }
    if !buildsDir.Dir? {
      return [];
    }
    var items := buildsDir.entries;
    builds := [];
    var i := 0;
    while i < |items|
      invariant 0 <= i <= |items|
      invariant builds == BuildsIn(items[..i])
    {
      var item := items[i];
      BuildsInStep(items, i);
      if IsDirectory(item.node) && HasServiceWorker(item.node) {
        var size := CalculateDirSize(item.node);
        builds := builds + [Build(item.name, "/Builds/" + item.name + "/", size)];
      }
      i := i + 1;
    }
    assert items[..i] == items;
  }

  /** Scanning one more entry appends its build, if it is one. */
  lemma BuildsInStep(es: seq<Entry>, i: nat)
    requires i < |es|
    ensures BuildsIn(es[..i + 1]) == BuildsIn(es[..i]) + (if IsBuild(es[i]) then [BuildOf(es[i])] else [])
  {
    assert es[..i + 1] == es[..i] + [es[i]];
    BuildsInAppend(es[..i], [es[i]]);
    assert [es[i]][1..] == [];
  }

  /** Scanning a listing split in two scans each part in turn: `readdir` order is kept. */
  lemma {:induction false} BuildsInAppend(a: seq<Entry>, b: seq<Entry>)
    ensures BuildsIn(a + b) == BuildsIn(a) + BuildsIn(b)
    decreases |a|
  {
    if a == [] {
      assert a + b == b;
    } else {
      var head := if IsBuild(a[0]) then [BuildOf(a[0])] else [];
      assert (a + b)[0] == a[0];
      assert (a + b)[1..] == a[1..] + b;
      assert BuildsIn(a + b) == head + BuildsIn(a[1..] + b);
      BuildsInAppend(a[1..], b);
      var rest, tail := BuildsIn(a[1..]), BuildsIn(b);
      assert head + (rest + tail) == (head + rest) + tail;
    }
  }

  /** A build is listed iff some entry is a directory holding `ServiceWorker.js`; its fields come from that entry. */
  lemma {:induction false} BuildsInMembership(es: seq<Entry>, b: Build)
    ensures b in BuildsIn(es) <==> exists i :: 0 <= i < |es| && IsBuild(es[i]) && b == BuildOf(es[i])
    decreases |es|
  {
    if es != [] {
      BuildsInMembership(es[1..], b);
      if exists i :: 0 <= i < |es[1..]| && IsBuild(es[1..][i]) && b == BuildOf(es[1..][i]) {
        var i :| 0 <= i < |es[1..]| && IsBuild(es[1..][i]) && b == BuildOf(es[1..][i]);
        assert es[i + 1] == es[1..][i];
      }
      if i :| 0 <= i < |es| && IsBuild(es[i]) && b == BuildOf(es[i]) {
        if i > 0 {
          assert es[1..][i - 1] == es[i];
        }
      }
    }
  }

  /** An entry whose `stat` fails is skipped; the scan goes on with its siblings. */
  lemma FailingEntrySkipped(a: seq<Entry>, name: string, reason: string, b: seq<Entry>)
    ensures BuildsIn(a + [Entry(name, Unreadable(reason))] + b) == BuildsIn(a + b)
  {
    BuildsInAppend(a + [Entry(name, Unreadable(reason))], b);
    BuildsInAppend(a, [Entry(name, Unreadable(reason))]);
    BuildsInAppend(a, b);
    assert BuildsIn([Entry(name, Unreadable(reason))]) == [];
  }

  // formatSizeToMB

  const MiB: nat := 1048576

  /**
   * `(bytes / (1024 * 1024)).toFixed(2)` in hundredths: the integer nearest to
   * 100 * bytes / 2^20, the larger one on a tie.
   */
  function Hundredths(bytes: nat): (h: nat)
    ensures bytes * 100 - MiB / 2 < h * MiB <= bytes * 100 + MiB / 2
  {
    (bytes * 100 + MiB / 2) / MiB
  }

  /** `formatSizeToMB`: whole mebibytes, a point, two decimals and `MB`. */
  function FormatSizeToMB(bytes: nat): (s: string)
    ensures EndsWith(s, "MB") && |s| >= 6 && s[|s| - 5] == '.'
    ensures IsDigits(s[..|s| - 5]) && IsDigits(s[|s| - 4..|s| - 2])
  {
    var h := Hundredths(bytes);
    var whole := NatToString(h / 100);
    var frac := [DigitChar(h % 100 / 10), DigitChar(h % 10)];
    var s := whole + "." + frac + "MB";
    assert s[|s| - 2..] == "MB";
    assert s[..|s| - 5] == whole;
    assert s[|s| - 4..|s| - 2] == frac;
    s
  }

  /** Reading the formatted size back gives the rounded number of hundredths. */
  lemma FormatSizeReadsBack(bytes: nat)
    ensures var s := FormatSizeToMB(bytes);
      ParseDigits(s[..|s| - 5]) * 100 + ParseDigits(s[|s| - 4..|s| - 2]) == Hundredths(bytes)
  {
    var h := Hundredths(bytes);
    var s := FormatSizeToMB(bytes);
    var whole := NatToString(h / 100);
    assert s[..|s| - 5] == whole;
    ParseNatToString(h / 100);
    var frac := s[|s| - 4..|s| - 2];
    assert frac == [DigitChar(h % 100 / 10), DigitChar(h % 10)];
    assert frac[..1] == [DigitChar(h % 100 / 10)];
    assert ParseDigits(frac[..1][..0]) == 0;
  }

  // generateBuildsList

  const NoBuildsMessage := "<p>No builds available.</p>"

  function BuildItem(b: Build): string
  {
    "<li><a href=\"" + b.path + "\"><span class=\"build-name\">" + b.name
    + "</span><span class=\"build-size\">" + FormatSizeToMB(b.size) + "</span></a></li>"
  }

  function BuildItems(bs: seq<Build>): (items: seq<string>)
    ensures |items| == |bs|
    ensures forall i :: 0 <= i < |bs| ==> items[i] == BuildItem(bs[i])
  {
    seq(|bs|, i requires 0 <= i < |bs| => BuildItem(bs[i]))
  }

  /** `generateBuildsList`. */
  function BuildsList(bs: seq<Build>): string
  {
    if |bs| == 0 then NoBuildsMessage else "<ul>" + Concat(BuildItems(bs)) + "</ul>"
  }

  /** The empty-list message is produced exactly for the empty list. */
  lemma BuildsListEmptyIff(bs: seq<Build>)
    ensures BuildsList(bs) == NoBuildsMessage <==> bs == []
  {
    if bs != [] {
      assert BuildsList(bs)[1] == 'u' != NoBuildsMessage[1];
    }
  }

  /** A non-empty list holds every build's item, in input order: items before, this one, items after. */
  lemma BuildsListItemAt(bs: seq<Build>, i: nat)
    requires i < |bs|
    ensures BuildsList(bs) == "<ul>" + Concat(BuildItems(bs)) + "</ul>"
    ensures Concat(BuildItems(bs)) == Concat(BuildItems(bs[..i])) + BuildItem(bs[i]) + Concat(BuildItems(bs[i + 1..]))
  {
    var items := BuildItems(bs);
    BuildItemsSlice(bs, 0, i);
    BuildItemsSlice(bs, i + 1, |bs|);
    assert items[0..i] == items[..i] && bs[0..i] == bs[..i];
    assert items[i + 1..|bs|] == items[i + 1..] && bs[i + 1..|bs|] == bs[i + 1..];
    ConcatAt(items, i);
  }

  lemma BuildItemsSlice(bs: seq<Build>, lo: nat, hi: nat)
    requires lo <= hi <= |bs|
    ensures BuildItems(bs)[lo..hi] == BuildItems(bs[lo..hi])
  {
  }

  // generateHomepage

  const PageHead := "<html><head><title>Unity WebGL Builds</title><link rel=\"stylesheet\" href=\"/style.css\"></head><body><div class=\"container\"><h1>Unity WebGL Builds</h1>"
  const PageTail := "</div></body></html>"

  method GenerateHomepage(buildsDir: Node) returns (html: string)
    ensures html == PageHead + BuildsList(FoundBuilds(buildsDir)) + PageTail
  {
    var builds := ScanBuilds(buildsDir);
    var content := BuildsList(builds);
    html := PageHead + content + PageTail;
  }

  /**
   * A folder holding only `TemplateData` and `Build` is not a build: of Game1 and
   * Game2, only Game1, which holds `ServiceWorker.js`, is listed.
   */
  lemma MarkerFileIsTheOnlySignal()
    ensures FoundBuilds(Dir([
      Entry("Game1", Dir([Entry("ServiceWorker.js", File(12000))])),
      Entry("Game2", Dir([
        Entry("TemplateData", Dir([])),
        Entry("Build", Dir([Entry("app.wasm.gz", File(8000)), Entry("app.data", File(4000))]))]))]))
      == [Build("Game1", "/Builds/Game1/", 12000)]
  {
    var game1 := Dir([Entry("ServiceWorker.js", File(12000))]);
    var build := Dir([Entry("app.wasm.gz", File(8000)), Entry("app.data", File(4000))]);
    var game2 := Dir([Entry("TemplateData", Dir([])), Entry("Build", build)]);
    var es := [Entry("Game1", game1), Entry("Game2", game2)];
    assert Child(game1, "ServiceWorker.js") == File(12000);
    assert DirSize(game1) == 12000;
    assert "TemplateData" != "ServiceWorker.js";
    assert "Build" != "ServiceWorker.js";
    assert Child(game2, "ServiceWorker.js") == Unreadable(NoSuchEntry);
    assert BuildsIn(es[1..]) == [];
    assert IsBuild(es[0]);
    assert BuildOf(es[0]) == Build("Game1", "/Builds/Game1/", 12000);
    assert BuildsIn(es) == [Build("Game1", "/Builds/Game1/", 12000)] + BuildsIn(es[1..]);
  }
}
