/** The navigation bar (src/components/ui/SiteHeader.tsx): which link is
    highlighted for the current path. */
module SiteHeader {
  import opened Text

  /** `NavLink`'s `active`: the exact path, or for any link but the home
      page, a path that starts with the link. */
  function IsActive(pathname: string, href: string): (b: bool)
    ensures pathname == href ==> b
    ensures href == "/" ==> (b <==> pathname == "/")
    ensures href != "/" ==> (b <==> StartsWith(pathname, href))
    ensures b ==> |href| <= |pathname|
  {
    pathname == href || (href != "/" && StartsWith(pathname, href))
  }

  /** A raw prefix test: "/learn" is highlighted on "/learning" and on
      "/learn/basics", and the home link on neither. */
  lemma PrefixHighlighting()
    ensures IsActive("/learning", "/learn")
    ensures IsActive("/learn/basics", "/learn")
    ensures !IsActive("/learning", "/")
    ensures !IsActive("/learn", "/library")
  {
    assert "/learning"[..6] == "/learn";
    assert "/learn/basics"[..6] == "/learn";
  }
}
