/**
 * The filesystem the servers read, as a finite tree. Every failure of `stat`,
 * `readdir` or `readFile` that the servers catch is a node of the tree, so the
 * scans and the routing below are total functions.
 */
module FileTree {
  import opened Text

  datatype Node =
    | File(size: nat)             // a regular file; its contents are opaque
    | Special(size: nat)          // a device, fifo or socket: neither file nor directory
    | Dir(entries: seq<Entry>)    // a directory, its entries in the order `readdir` yields them
    | Sealed(reason: string)      // `stat` reports a directory that can be neither listed nor searched
    | Unreadable(reason: string)  // `stat` fails: missing, permission denied, vanished

  datatype Entry = Entry(name: string, node: Node)

  const NoSuchEntry := "No such file or directory"
  const NotADirectory := "Not a directory"
  const PermissionDenied := "Permission denied"

  /** `stat` succeeds (what `existsSync` answers). */
  predicate Exists(n: Node)
  {
    !n.Unreadable?
  }

  /** `stat(...).isDirectory()`. */
  predicate IsDirectory(n: Node)
  {
    n.Dir? || n.Sealed?
  }

  /** The node of the first entry called `name`, as a directory lookup finds it. */
  function Lookup(es: seq<Entry>, name: string): (c: Node)
    ensures (forall i :: 0 <= i < |es| ==> es[i].name != name) ==> c == Unreadable(NoSuchEntry)
    ensures forall i :: 0 <= i < |es| && es[i].name == name && (forall j :: 0 <= j < i ==> es[j].name != name) ==>
      c == es[i].node
  {
    if es == [] then Unreadable(NoSuchEntry)
    else if es[0].name == name then es[0].node
    else Lookup(es[1..], name)
  }

  /** The node at `join(dir, name)`. */
  function Child(dir: Node, name: string): (c: Node)
    ensures Exists(c) ==> dir.Dir? && exists i :: 0 <= i < |dir.entries| && dir.entries[i] == Entry(name, c)
  {
    match dir
    case Dir(es) => LookupFound(es, name); Lookup(es, name)
    case File(_) => Unreadable(NotADirectory)
    case Special(_) => Unreadable(NotADirectory)
    case Sealed(_) => Unreadable(PermissionDenied)
    case Unreadable(reason) => Unreadable(reason)
  }

  lemma {:induction false} LookupFound(es: seq<Entry>, name: string)
    ensures Exists(Lookup(es, name)) ==> exists i :: 0 <= i < |es| && es[i] == Entry(name, Lookup(es, name))
  {
    if es != [] && es[0].name != name {
      LookupFound(es[1..], name);
      if Exists(Lookup(es, name)) {
        var i :| 0 <= i < |es[1..]| && es[1..][i] == Entry(name, Lookup(es, name));
        assert es[i + 1] == Entry(name, Lookup(es, name));
      }
    } else if es != [] {
      assert es[0] == Entry(name, Lookup(es, name));
    }
  }

  /** The non-empty components of a path, `cur` being the component read so far. */
  function Split(p: string, cur: string): (segs: seq<string>)
    requires '/' !in cur
    ensures forall s :: s in segs ==> s != "" && '/' !in s
    decreases |p|
  {
    if p == [] then (if cur == "" then [] else [cur])
    else if p[0] == '/' then (if cur == "" then [] else [cur]) + Split(p[1..], "")
    else Split(p[1..], cur + [p[0]])
  }

  /** The components `join` keeps of a URL path: empty ones (from `//` or a final `/`) vanish. */
  function Segments(path: string): seq<string>
  {
    Split(path, "")
  }

  /** The URL path naming a sequence of components. */
  function PathOf(names: seq<string>): string
  {
    if names == [] then "" else "/" + names[0] + PathOf(names[1..])
  }

  /** A component is a file name a directory listing can hold. */
  predicate IsName(name: string)
  {
    name != "" && '/' !in name && name != "." && name != ".."
  }

  lemma {:induction false} SplitName(n: string, rest: string, cur: string)
    requires '/' !in n && '/' !in cur
    ensures Split(n + rest, cur) == Split(rest, cur + n)
    decreases |n|
  {
    if n != [] {
      assert (n + rest)[1..] == n[1..] + rest;
      SplitName(n[1..], rest, cur + [n[0]]);
      assert cur + [n[0]] + n[1..] == cur + n;
    } else {
      assert n + rest == rest && cur + n == cur;
    }
  }

  lemma {:induction false} SplitPath(names: seq<string>, cur: string)
    requires '/' !in cur
    requires forall k :: 0 <= k < |names| ==> IsName(names[k])
    ensures Split(PathOf(names), cur) == (if cur == "" then [] else [cur]) + names
    decreases |names|
  {
    if names != [] {
      var p := PathOf(names);
      var rest := PathOf(names[1..]);
      assert p == "/" + (names[0] + rest);
      assert p[1..] == names[0] + rest;
      SplitName(names[0], rest, "");
      assert "" + names[0] == names[0];
      SplitPath(names[1..], names[0]);
      assert names == [names[0]] + names[1..];
    }
  }

  /** Splitting is the inverse of building a path from file names. */
  lemma SegmentsOfPath(names: seq<string>)
    requires forall k :: 0 <= k < |names| ==> IsName(names[k])
    ensures Segments(PathOf(names)) == names
  {
    SplitPath(names, "");
  }

  lemma {:induction false} SplitTrailingSlash(p: string, cur: string)
    requires '/' !in cur
    ensures Split(p + "/", cur) == Split(p, cur)
    decreases |p|
  {
    if p == [] {
      assert p + "/" == "/";
      assert Split("/", cur) == (if cur == "" then [] else [cur]) + Split("", "");
    } else {
      assert (p + "/")[1..] == p[1..] + "/";
      if p[0] == '/' {
        SplitTrailingSlash(p[1..], "");
      } else {
        SplitTrailingSlash(p[1..], cur + [p[0]]);
      }
    }
  }

  /** A final `/` names the same components. */
  lemma SegmentsTrailingSlash(p: string)
    ensures Segments(p + "/") == Segments(p)
  {
    SplitTrailingSlash(p, "");
  }

  /** The node a sequence of components leads to. */
  function Resolve(n: Node, segs: seq<string>): Node
    decreases |segs|
  {
    if segs == [] then n else Resolve(Child(n, segs[0]), segs[1..])
  }

  /**
   * What `stat` reports for the URL path `path` below the tree `root`: a final
   * `/` on anything but a directory fails with ENOTDIR.
   */
  function StatPath(root: Node, path: string): (n: Node)
    ensures Exists(n) && EndsWith(path, "/") ==> IsDirectory(n)
  {
    var n := Resolve(root, Segments(path));
    if EndsWith(path, "/") && Exists(n) && !IsDirectory(n) then Unreadable(NotADirectory) else n
  }

  lemma {:induction false} SplitAfterSlash(p: string, q: string, cur: string)
    requires EndsWith(p, "/") && '/' !in cur
    ensures Split(p + q, cur) == Split(p, cur) + Split(q, "")
    decreases |p|
  {
    assert p[|p| - 1] == '/' by { assert p[|p| - 1..][0] == p[|p| - 1]; }
    assert (p + q)[1..] == p[1..] + q;
    if |p| == 1 {
      assert p == "/";
      assert Split(p, cur) == (if cur == "" then [] else [cur]) + Split("", "");
    } else {
      assert EndsWith(p[1..], "/") by { assert p[1..][|p| - 2..] == p[|p| - 1..]; }
      if p[0] == '/' {
        SplitAfterSlash(p[1..], q, "");
      } else {
        SplitAfterSlash(p[1..], q, cur + [p[0]]);
      }
    }
  }

  /** Appending a file name to a slash-terminated path appends one component. */
  lemma SegmentsAppendName(p: string, name: string)
    requires EndsWith(p, "/") && name != "" && '/' !in name
    ensures Segments(p + name) == Segments(p) + [name]
  {
    SplitAfterSlash(p, name, "");
    SplitName(name, "", "");
    assert name + "" == name;
    assert "" + name == name;
  }

  /**
   * `join(base, name)` for a single file name: one `/` between the two, and
   * just `name` when `base` is empty. (`join` also tidies repeated `/` in
   * `base`; the components it names are the same.)
   */
  function Join(base: string, name: string): (p: string)
    ensures base == "" ==> p == name
    ensures EndsWith(p, name)
    ensures base != "" ==> EndsWith(p, "/" + name)
    ensures IsName(name) ==> Segments(p) == Segments(base) + [name]
  {
    var p := if base == "" then name else if EndsWith(base, "/") then base + name else base + "/" + name;
    JoinShape(base, name, p);
    p
  }

  lemma JoinShape(base: string, name: string, p: string)
    requires p == if base == "" then name else if EndsWith(base, "/") then base + name else base + "/" + name
    ensures EndsWith(p, name)
    ensures base != "" ==> EndsWith(p, "/" + name)
    ensures IsName(name) ==> Segments(p) == Segments(base) + [name]
  {
    if base == "" {
      assert p[|p| - |name|..] == name;
      if IsName(name) {
        SplitName(name, "", "");
        assert name + "" == name;
        assert "" + name == name;
      }
    } else {
      var dir := if EndsWith(base, "/") then base else base + "/";
      assert p == dir + name;
      EndsWithTail(base, "/");
      assert EndsWith(dir, "/");
      var stem := dir[..|dir| - 1];
      assert dir == stem + "/" by { assert dir[|dir| - 1..] == "/"; }
      assert p == stem + ("/" + name);
      EndsWithTail(stem, "/" + name);
      EndsWithTail(stem + "/", name);
      if IsName(name) {
        SegmentsAppendName(dir, name);
        SegmentsTrailingSlash(base);
      }
    }
  }

  /** `join(baseDir, "Builds")`: the folder of builds both servers list. */
  function BuildsDir(baseDir: string): (p: string)
    ensures Segments(p) == Segments(baseDir) + ["Builds"]
    ensures baseDir != "" ==> EndsWith(p, "/Builds")
  {
    Join(baseDir, "Builds")
  }
}
