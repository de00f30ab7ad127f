/** Request classification (sw.js lines 39-45): which requests the worker
    intercepts and which retrieval strategy each one gets. */
module Classify {
  import opened SwTypes
  import opened Text

  /** The accept header, or the empty string when it is absent. */
  function AcceptOf(req: Request): string
  {
    if req.accept.Some? then req.accept.value else ""
  }

  /** A top-level document load, or a request whose accept header has
      "text/html" somewhere in it (an absent header counts as empty). */
  predicate IsNavigation(req: Request)
    ensures IsNavigation(req) <==> req.mode == "navigate" || exists i :: OccursAt(AcceptOf(req), "text/html", i)
    ensures req.accept.None? ==> (IsNavigation(req) <==> req.mode == "navigate")
  {
    ContainsIffOccurs(AcceptOf(req), "text/html");
    req.mode == "navigate" || Contains(AcceptOf(req), "text/html")
  }

  /** The application bundle, recognised by the end of the URL's path.
      The '/app.js' test adds nothing: every path that passes it also ends
      in 'app.js'. */
  predicate IsAppJs(req: Request)
    ensures IsAppJs(req) <==> EndsWith(req.pathname, "app.js")
  {
    EndsWith(req.pathname, "/app.js") || EndsWith(req.pathname, "app.js")
  }

  datatype Strategy = Bypass | NetworkFirst | CacheFirst

  /** Network-first is chosen exactly for GET requests that are navigations,
      accept HTML, or name a path ending in 'app.js'; every other GET is
      served cache-first and nothing else is intercepted. */
  function StrategyOf(req: Request): (r: Strategy)
    ensures r == Bypass <==> req.verb != "GET"
    ensures r == NetworkFirst <==>
      req.verb == "GET" && (req.mode == "navigate" || Contains(AcceptOf(req), "text/html") || EndsWith(req.pathname, "app.js"))
    ensures r == CacheFirst <==>
      req.verb == "GET" && req.mode != "navigate" && !Contains(AcceptOf(req), "text/html") && !EndsWith(req.pathname, "app.js")
  {
    if req.verb != "GET" then Bypass
    else if IsNavigation(req) || IsAppJs(req) then NetworkFirst
    else CacheFirst
  }

  /** The suffix test is looser than a file-name test: any path whose last
      segment merely ends in 'app.js' is treated as the bundle. */
  lemma LooseBundleMatch()
    ensures StrategyOf(Request("GET", "/myapp.js", "no-cors", None, "/myapp.js")) == NetworkFirst
  {
  }

  /** No request that accepts HTML is ever served cache-first. */
  lemma HtmlIsNeverCacheFirst(req: Request)
    requires Contains(AcceptOf(req), "text/html")
    ensures StrategyOf(req) != CacheFirst
  {
  }
}
