/**
 * The response-header rules that both servers apply to every request before
 * routing it: the cross-origin-isolation headers that WebAssembly threads need,
 * the `Content-Encoding` of pre-compressed files and the `Content-Type` chosen by
 * substring tests on the path. `index.js` and `index-deno.js` carry the same
 * statements; they are modelled once here.
 */
module HeaderRules {
  import opened Options
  import opened Text

  datatype HeaderName =
    | CrossOriginOpenerPolicy
    | CrossOriginEmbedderPolicy
    | CrossOriginResourcePolicy
    | AccessControlAllowOrigin
    | ContentEncoding
    | ContentType
    | Location

  /** Response header fields, one value per (case-insensitive) name. */
  type Fields = map<HeaderName, string>

  const Wasm := "application/wasm"
  const Javascript := "application/javascript"
  const Json := "application/json"
  const OctetStream := "application/octet-stream"

  /** The paths that receive the isolation headers (when multithreading is on). */
  predicate IsolationApplies(path: string)
  {
    path == "/" || Contains(path, ".js") || Contains(path, ".html") || Contains(path, ".htm")
  }

  /** `Content-Encoding` from the suffix of a pre-compressed file. */
  function EncodingOf(path: string): (r: Option<string>)
    ensures r == Some("br") <==> EndsWith(path, ".br")
    ensures r.Some? ==> r.value == "br" || r.value == "gzip"
  {
    if EndsWith(path, ".br") then Some("br")
    else if EndsWith(path, ".gz") then Some("gzip")
    else None
  }

  /** `Content-Type` from the first substring test that succeeds. */
  function ContentTypeOf(path: string): (r: Option<string>)
    ensures r == Some(Wasm) <==> Contains(path, ".wasm")
    ensures Contains(path, ".js") && !Contains(path, ".wasm") ==> r == Some(Javascript)
  {
    if Contains(path, ".wasm") then Some(Wasm)
    else if Contains(path, ".js") then Some(Javascript)
    else if Contains(path, ".json") then Some(Json)
    else if Contains(path, ".data") || Contains(path, ".bundle") || EndsWith(path, ".unityweb") then Some(OctetStream)
    else None
  }

  /** The value the rules give header `n` for `path`, or None when they leave it alone. */
  function RuleValue(path: string, multithreading: bool, cors: bool, n: HeaderName): Option<string>
  {
    match n
    case CrossOriginOpenerPolicy =>
      if multithreading && IsolationApplies(path) then Some("same-origin") else None
    case CrossOriginEmbedderPolicy =>
      if multithreading && IsolationApplies(path) then Some("require-corp") else None
    case CrossOriginResourcePolicy =>
      if multithreading && IsolationApplies(path) then Some("cross-origin") else None
    case AccessControlAllowOrigin => if cors then Some("*") else None
    case ContentEncoding => EncodingOf(path)
    case ContentType => ContentTypeOf(path)
    case Location => None
  }

  function OptionalField(n: HeaderName, v: Option<string>): Fields
  {
    if v.Some? then map[n := v.value] else map[]
  }

  function IsolationFields(path: string, multithreading: bool): Fields
  {
    if multithreading && IsolationApplies(path) then
      map[CrossOriginOpenerPolicy := "same-origin", CrossOriginEmbedderPolicy := "require-corp",
          CrossOriginResourcePolicy := "cross-origin"]
    else map[]
  }

  /** The fields the rules set for `path`: exactly the names `RuleValue` gives a value. */
  function RuleFields(path: string, multithreading: bool, cors: bool): (f: Fields)
    ensures forall n :: n in f <==> RuleValue(path, multithreading, cors, n).Some?
    ensures forall n :: n in f ==> f[n] == RuleValue(path, multithreading, cors, n).value
  {
    var f := IsolationFields(path, multithreading)
      + OptionalField(AccessControlAllowOrigin, if cors then Some("*") else None)
      + OptionalField(ContentEncoding, EncodingOf(path))
      + OptionalField(ContentType, ContentTypeOf(path));
    RuleFieldsByName(path, multithreading, cors, f);
    f
  }

  lemma RuleFieldsByName(path: string, multithreading: bool, cors: bool, f: Fields)
    requires f == IsolationFields(path, multithreading)
      + OptionalField(AccessControlAllowOrigin, if cors then Some("*") else None)
      + OptionalField(ContentEncoding, EncodingOf(path))
      + OptionalField(ContentType, ContentTypeOf(path))
    ensures forall n :: n in f <==> RuleValue(path, multithreading, cors, n).Some?
    ensures forall n :: n in f ==> f[n] == RuleValue(path, multithreading, cors, n).value
  {
    forall n
      ensures n in f <==> RuleValue(path, multithreading, cors, n).Some?
      ensures n in f ==> f[n] == RuleValue(path, multithreading, cors, n).value
    {
      RuleFieldAt(path, multithreading, cors, f, n);
    }
  }

  lemma RuleFieldAt(path: string, multithreading: bool, cors: bool, f: Fields, n: HeaderName)
    requires f == IsolationFields(path, multithreading)
      + OptionalField(AccessControlAllowOrigin, if cors then Some("*") else None)
      + OptionalField(ContentEncoding, EncodingOf(path))
      + OptionalField(ContentType, ContentTypeOf(path))
    ensures n in f <==> RuleValue(path, multithreading, cors, n).Some?
    ensures n in f ==> f[n] == RuleValue(path, multithreading, cors, n).value
  {
    var iso := IsolationFields(path, multithreading);
    var acao := OptionalField(AccessControlAllowOrigin, if cors then Some("*") else None);
    var enc := OptionalField(ContentEncoding, EncodingOf(path));
    var ct := OptionalField(ContentType, ContentTypeOf(path));
    assert f == iso + acao + enc + ct;
    match n
    case ContentType =>
    case ContentEncoding =>
      assert n !in ct;
    case AccessControlAllowOrigin =>
      assert n !in ct && n !in enc;
    case Location =>
      assert n !in ct && n !in enc && n !in acao && n !in iso;
    case _ =>
      assert n !in ct && n !in enc && n !in acao;
  }

  /** A mutable set of response headers: `Headers` in Deno, a Fastify reply. */
  class HeaderMap {
    var fields: Fields

    constructor ()
      ensures fields == map[]
    {
      fields := map[];
    }

    /** `headers.set(name, value)` / `reply.header(name, value)`: replaces any earlier value. */
    method Set(n: HeaderName, v: string)
      modifies this
      ensures fields == old(fields)[n := v]
    {
      fields := fields[n := v];
    }
  }

  /**
   * The header statements shared by both request handlers, in their order:
   * isolation headers, CORS, encoding, then the content-type chain.
   */
  method ApplyRules(path: string, multithreading: bool, cors: bool, h: HeaderMap)
    modifies h
    ensures h.fields == old(h.fields) + RuleFields(path, multithreading, cors)
  {
    ghost var start := h.fields;
    SetIsolationHeaders(path, multithreading, h);
    ghost var isolated := h.fields;
    if cors {
      h.Set(AccessControlAllowOrigin, "*");
    }
    assert h.fields == isolated + OptionalField(AccessControlAllowOrigin, if cors then Some("*") else None);
    SetContentEncoding(path, h);
    SetContentType(path, h);
    assert RuleFields(path, multithreading, cors) == IsolationFields(path, multithreading)
      + OptionalField(AccessControlAllowOrigin, if cors then Some("*") else None)
      + OptionalField(ContentEncoding, EncodingOf(path))
      + OptionalField(ContentType, ContentTypeOf(path));
    UnionAssociative(start, IsolationFields(path, multithreading),
      OptionalField(AccessControlAllowOrigin, if cors then Some("*") else None),
      OptionalField(ContentEncoding, EncodingOf(path)), OptionalField(ContentType, ContentTypeOf(path)));
  }

  method SetIsolationHeaders(path: string, multithreading: bool, h: HeaderMap)
    modifies h
    ensures h.fields == old(h.fields) + IsolationFields(path, multithreading)
  {
    if multithreading && (path == "/" || Contains(path, ".js") || Contains(path, ".html") || Contains(path, ".htm")) {
      h.Set(CrossOriginOpenerPolicy, "same-origin");
      h.Set(CrossOriginEmbedderPolicy, "require-corp");
      h.Set(CrossOriginResourcePolicy, "cross-origin");
    }
  }

  method SetContentEncoding(path: string, h: HeaderMap)
    modifies h
    ensures h.fields == old(h.fields) + OptionalField(ContentEncoding, EncodingOf(path))
  {
    if EndsWith(path, ".br") {
      h.Set(ContentEncoding, "br");
    } else if EndsWith(path, ".gz") {
      h.Set(ContentEncoding, "gzip");
    }
  }

  method SetContentType(path: string, h: HeaderMap)
    modifies h
    ensures h.fields == old(h.fields) + OptionalField(ContentType, ContentTypeOf(path))
  {
    if Contains(path, ".wasm") {
      h.Set(ContentType, Wasm);
    } else if Contains(path, ".js") {
      h.Set(ContentType, Javascript);
    } else if Contains(path, ".json") {
      h.Set(ContentType, Json);
    } else if Contains(path, ".data") || Contains(path, ".bundle") || EndsWith(path, ".unityweb") {
      h.Set(ContentType, OctetStream);
    }
  }

  lemma UnionAssociative(m: Fields, a: Fields, b: Fields, c: Fields, d: Fields)
    ensures m + (a + b + c + d) == m + a + b + c + d
  {
    UnionAssociative3(m, a + b + c, d);
    UnionAssociative3(m, a + b, c);
    UnionAssociative3(m, a, b);
  }

  lemma UnionAssociative3(x: Fields, y: Fields, z: Fields)
    ensures x + (y + z) == x + y + z
  {
  }

  /** The three isolation headers come together or not at all. */
  lemma IsolationHeadersTogether(path: string, multithreading: bool, cors: bool)
    ensures var f := RuleFields(path, multithreading, cors);
      (CrossOriginOpenerPolicy in f <==> multithreading && IsolationApplies(path)) &&
      (CrossOriginEmbedderPolicy in f <==> CrossOriginOpenerPolicy in f) &&
      (CrossOriginResourcePolicy in f <==> CrossOriginOpenerPolicy in f)
  {
  }

  /** Every `.html` path is an `.htm` path, so the `.html` test never decides anything. */
  lemma {:induction false} HtmlTestRedundant(path: string)
    ensures IsolationApplies(path) <==> path == "/" || Contains(path, ".js") || Contains(path, ".htm")
  {
    if Contains(path, ".html") {
      assert ".htm" + "l" == ".html";
      ContainsLonger(path, ".htm", "l");
    }
  }

  lemma EndsWithLast(s: string, t: string)
    requires EndsWith(s, t) && |t| > 0
    ensures s[|s| - 1] == t[|t| - 1]
  {
    assert s[|s| - |t|..][|t| - 1] == s[|s| - 1];
  }

  /** No path is both Brotli- and gzip-compressed. */
  lemma {:induction false} EncodingsExclusive(path: string)
    ensures !(EndsWith(path, ".br") && EndsWith(path, ".gz"))
  {
    if EndsWith(path, ".br") && EndsWith(path, ".gz") {
      EndsWithLast(path, ".br");
      EndsWithLast(path, ".gz");
    }
  }

  /** `Content-Encoding` is `br` exactly for `.br` paths and `gzip` exactly for `.gz` paths. */
  lemma {:induction false} EncodingBySuffix(path: string)
    ensures EncodingOf(path) == Some("br") <==> EndsWith(path, ".br")
    ensures EncodingOf(path) == Some("gzip") <==> EndsWith(path, ".gz")
    ensures EncodingOf(path) == None <==> !EndsWith(path, ".br") && !EndsWith(path, ".gz")
  {
    EncodingsExclusive(path);
  }

  /** The content-type chain without its JSON branch. */
  function ContentTypeWithoutJson(path: string): Option<string>
  {
    if Contains(path, ".wasm") then Some(Wasm)
    else if Contains(path, ".js") then Some(Javascript)
    else if Contains(path, ".data") || Contains(path, ".bundle") || EndsWith(path, ".unityweb") then Some(OctetStream)
    else None
  }

  /** Every path containing `.json` contains `.js`, so the JSON branch is dead code. */
  lemma {:induction false} JsonBranchDead(path: string)
    ensures ContentTypeOf(path) == ContentTypeWithoutJson(path)
    ensures ContentTypeOf(path) != Some(Json)
  {
    if Contains(path, ".json") {
      assert ".js" + "on" == ".json";
      ContainsLonger(path, ".js", "on");
    }
  }

  /** JSON files are served as JavaScript (unless the path also mentions `.wasm`). */
  lemma {:induction false} JsonServedAsJavascript(path: string)
    requires Contains(path, ".json") && !Contains(path, ".wasm")
    ensures ContentTypeOf(path) == Some(Javascript)
  {
    assert ".js" + "on" == ".json";
    ContainsLonger(path, ".js", "on");
  }

  /** The compressed payloads of a Unity build get the encoding and type a browser needs. */
  lemma {:induction false} CompressedUnityAssets(p: string, multithreading: bool, cors: bool)
    ensures EncodingOf(p + ".wasm.br") == Some("br") && ContentTypeOf(p + ".wasm.br") == Some(Wasm)
    ensures EncodingOf(p + ".wasm.gz") == Some("gzip") && ContentTypeOf(p + ".wasm.gz") == Some(Wasm)
    ensures EncodingOf(p + ".js.br") == Some("br") && ContentTypeOf(p + ".js.br") != None
    ensures EncodingOf(p + ".js.gz") == Some("gzip") && ContentTypeOf(p + ".js.gz") != None
    ensures multithreading ==> RuleValue(p + ".js.br", multithreading, cors, CrossOriginEmbedderPolicy) == Some("require-corp")
    ensures multithreading ==> RuleValue(p + ".js.gz", multithreading, cors, CrossOriginEmbedderPolicy) == Some("require-corp")
  {
    assert p + ".wasm.br" == (p + ".wasm") + ".br";
    assert p + ".wasm.gz" == (p + ".wasm") + ".gz";
    assert p + ".js.br" == (p + ".js") + ".br";
    assert p + ".js.gz" == (p + ".js") + ".gz";
    ContainsTail(p, ".wasm");
    ContainsTail(p, ".js");
    ContainsExtend(p + ".wasm", ".br", ".wasm");
    ContainsExtend(p + ".wasm", ".gz", ".wasm");
    ContainsExtend(p + ".js", ".br", ".js");
    ContainsExtend(p + ".js", ".gz", ".js");
    EndsWithTail(p + ".wasm", ".br");
    EndsWithTail(p + ".wasm", ".gz");
    EndsWithTail(p + ".js", ".br");
    EndsWithTail(p + ".js", ".gz");
    EncodingBySuffix(p + ".wasm.gz");
    EncodingBySuffix(p + ".js.gz");
  }
}
