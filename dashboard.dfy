/** The dashboard hook: the current page name derived from the path, and a loading flag. */
module Dashboard {
  import opened JsString

  const DefaultPage := "dashboard"

  /** `pathname.split('/').pop() || 'dashboard'`: the last path segment, or `dashboard` when it is empty. */
  function CurrentPage(pathname: string): (r: string)
    ensures r != [] && '/' !in r
  {
    var pieces := Split(pathname, '/');
    var last := pieces[|pieces| - 1];
    SplitPieceFree(pathname, '/', |pieces| - 1);
    if last == "" then DefaultPage else last
  }

  /** The page is the text after the last `/`; a path ending in `/` gives the default page. */
  lemma CurrentPageAfterLastSlash(pathname: string, i: nat)
    requires i < |pathname| && pathname[i] == '/' && '/' !in pathname[i + 1..]
    ensures CurrentPage(pathname) == if i == |pathname| - 1 then DefaultPage else pathname[i + 1..]
  {
    SplitLastPiece(pathname, '/', i);
  }

  /** A path without `/` is its own page name; the empty path gives the default page. */
  lemma CurrentPageNoSlash(pathname: string)
    requires '/' !in pathname
    ensures CurrentPage(pathname) == if pathname == "" then DefaultPage else pathname
  {
    SplitWithout(pathname, '/');
  }

  /** The state of one `useDashboard` instance. */
  class DashboardState {
    var loading: bool
    var currentPage: string
    const pathname: string

    /** The initial state: not loading, page derived from the path. */
    constructor (pathname: string)
      ensures this.pathname == pathname
      ensures !loading && currentPage == CurrentPage(pathname)
    {
      this.pathname := pathname;
      loading := false;
      currentPage := CurrentPage(pathname);
    }

    /** `setLoading(b)`: sets the flag, keeps the page. */
    method SetLoading(b: bool)
      modifies this
      ensures loading == b && currentPage == old(currentPage)
    {
      loading := b;
    }
  }
}
