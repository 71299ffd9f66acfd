/**
 * Whether the layout shows the site header (src/components/ConditionalHeader.tsx):
 * an exact match on three paths hides it.
 */
module ConditionalHeader {
  import opened Text
  import opened Middleware

  predicate ShowsHeader(pathname: string) {
    !(pathname == "/login" || pathname == "/register" || pathname == "/home")
  }

  /**
   * The header test is exact while the gate tests a prefix: among gated
   * paths only "/home" itself hides the header, so a path under it such as
   * "/home/x" is gated and shows the header.
   */
  lemma GatedPathsShowHeaderBelowHome(pathname: string)
    requires IsProtected(pathname)
    ensures ShowsHeader(pathname) <==> pathname != "/home"
  {
    assert pathname[..5] == "/home";
    assert "/login"[..5][1] == 'l';
    assert "/register"[..5][1] == 'r';
  }
}
