/** The development proxy's path rewrite in frontend/vite.config.js: `path.replace(/^\/api/, '')`. */
module ViteConfig {

  const ApiPrefix: string := "/api"

  /**
   * Strips a leading "/api", once, with no regard for segment boundaries;
   * any other path is passed through. The result is always a suffix of the
   * input.
   */
  function Rewrite(path: string): (r: string)
    ensures |r| <= |path| && r == path[|path| - |r|..]
    ensures ApiPrefix <= path ==> ApiPrefix + r == path
    ensures !(ApiPrefix <= path) ==> r == path
  {
    if ApiPrefix <= path then path[|ApiPrefix|..] else path
  }

  /** What the client prefixes, the proxy removes: the backend sees the original route. */
  lemma RewriteUndoesPrefix(route: string)
    ensures Rewrite(ApiPrefix + route) == route
  {
    assert ApiPrefix <= ApiPrefix + route;
  }

  /** Worked cases: only the leading occurrence goes, and "/apix" loses its "/api" too. */
  lemma RewriteExamples()
    ensures Rewrite("/api/jobs") == "/jobs"
    ensures Rewrite("/api/api/x") == "/api/x"
    ensures Rewrite("/apix") == "x"
    ensures Rewrite("/jobs") == "/jobs"
  {
    RewriteUndoesPrefix("/jobs");
    RewriteUndoesPrefix("/api/x");
    RewriteUndoesPrefix("x");
    assert "/jobs"[1] != ApiPrefix[1];
  }
}
