/**
 * `index.js`: the Node server. Its `onRequest` hook applies the shared header
 * rules to the request URL and lets conditional requests revalidate by
 * removing a `Cache-Control: no-cache` request header; the base directory is
 * chosen from the command line.
 */
module ServerNode {
  import opened Text
  import opened FileTree
  import opened HeaderRules

  const EnableCors := false
  const EnableWasmMultithreading := true

  /** The request's header object, which the hook edits in place. */
  class RequestHeaders {
    var fields: map<string, string>

    constructor(initial: map<string, string>)
      ensures fields == initial
    {
      fields := initial;
    }

    method Delete(key: string)
      modifies this
      ensures fields == old(fields) - {key}
    {
      fields := fields - {key};
    }
  }

  /** `request.headers[key]` is a non-empty string. */
  predicate Truthy(m: map<string, string>, key: string)
  {
    key in m && m[key] != ""
  }

  /** `no-cache` together with a validator: the condition the hook looks for. */
  predicate NoCacheWithValidator(m: map<string, string>)
  {
    "cache-control" in m && m["cache-control"] == "no-cache"
    && (Truthy(m, "if-modified-since") || Truthy(m, "if-none-match"))
  }

  /**
   * The request headers after the hook: `cache-control` goes exactly when it
   * is `no-cache` and a validator is present, every other header stays, and
   * afterwards the condition no longer holds.
   */
  function Revalidated(m: map<string, string>): (r: map<string, string>)
    ensures "cache-control" in r <==> "cache-control" in m && !NoCacheWithValidator(m)
    ensures forall k :: k != "cache-control" ==> (k in r <==> k in m)
    ensures forall k :: k in r ==> r[k] == m[k]
    ensures !NoCacheWithValidator(r)
  {
    if NoCacheWithValidator(m) then m - {"cache-control"} else m
  }

  /** Running the hook's header edit twice changes nothing more. */
  lemma RevalidatedIdempotent(m: map<string, string>)
    ensures Revalidated(Revalidated(m)) == Revalidated(m)
  {
    var r := Revalidated(m);
    assert !NoCacheWithValidator(r);
  }

  /** The `onRequest` hook for a request with URL `url` (path and query). */
  method OnRequest(url: string, reply: HeaderMap, request: RequestHeaders)
    modifies reply, request
    ensures reply.fields == old(reply.fields) + RuleFields(url, EnableWasmMultithreading, EnableCors)
    ensures request.fields == Revalidated(old(request.fields))
  {
    ApplyRules(url, EnableWasmMultithreading, EnableCors, reply);
    var h := request.fields;
    if "cache-control" in h && h["cache-control"] == "no-cache"
       && (Truthy(h, "if-modified-since") || Truthy(h, "if-none-match"))
    {
      request.Delete("cache-control");
    }
  }

  /** `process.argv[2] ? process.cwd() : __dirname`. */
  function BaseDir(argv: seq<string>, cwd: string, scriptDir: string): (d: string)
    ensures |argv| > 2 && argv[2] != "" ==> d == cwd
    ensures (|argv| <= 2 || argv[2] == "") ==> d == scriptDir
  {
    if |argv| > 2 && argv[2] != "" then cwd else scriptDir
  }
}
