/** The site header: which navigation entry is highlighted for the current
    path, and the open/closed flag of the mobile menu. */
module Navigation {

  /** Whether the entry linking to `href` is highlighted on page `pathname`.
      The home entry only on the home page; any other entry on its own page and
      on every page below it. The desktop and the mobile menu use this same rule. */
  predicate IsActive(pathname: string, href: string) {
    if href == "/" then pathname == "/"
    else pathname == href || href + "/" <= pathname
  }

  /** An entry other than home is highlighted exactly when its link is a
      prefix of the path that ends the path or is followed by a `/`. */
  lemma ActiveIffSegmentPrefix(pathname: string, href: string)
    requires href != "/"
    ensures IsActive(pathname, href)
        <==> href <= pathname && (|pathname| == |href| || pathname[|href|] == '/')
  {
    if href <= pathname && |pathname| > |href| && pathname[|href|] == '/' {
      assert (href + "/")[..|href|] == href;
      assert pathname[..|href| + 1] == href + "/";
    }
    if href + "/" <= pathname {
      assert pathname[..|href|] == (href + "/")[..|href|];
      assert pathname[|href|] == (href + "/")[|href|];
    }
  }

  /** The home entry is highlighted on the home page and nowhere else. */
  lemma HomeActiveIff(pathname: string)
    ensures IsActive(pathname, "/") <==> pathname == "/"
  {
  }

  /** Every other entry is highlighted on its own page and on the pages below it. */
  lemma ActiveOnOwnPages(href: string, rest: string)
    requires href != "/"
    ensures IsActive(href, href)
    ensures IsActive(href + "/" + rest, href)
  {
    assert (href + "/" + rest)[..|href| + 1] == href + "/";
  }

  /** A path that only shares a prefix with the link, without a `/` after it,
      does not highlight the entry. */
  lemma SiblingNotActive(href: string, suffix: string)
    requires href != "/" && suffix != [] && suffix[0] != '/'
    ensures !IsActive(href + suffix, href)
  {
    var p := href + suffix;
    assert p[|href|] == suffix[0];
    ActiveIffSegmentPrefix(p, href);
  }

  lemma SiblingExample()
    ensures !IsActive("/x-codes-old", "/x-codes")
    ensures IsActive("/x-codes/expired", "/x-codes")
  {
    assert "/x-codes-old" == "/x-codes" + "-old";
    SiblingNotActive("/x-codes", "-old");
    assert "/x-codes/expired" == "/x-codes" + "/" + "expired";
    ActiveOnOwnPages("/x-codes", "expired");
  }

  /** The mobile menu's open flag. */
  class MobileMenu {
    var open: bool

    constructor ()
      ensures !open
    {
      open := false;
    }

    /** The menu button flips the flag. */
    method Toggle()
      modifies this
      ensures open == !old(open)
    {
      open := !open;
    }

    /** Closing: the overlay, a menu link, or the Privacy and Terms links. */
    method Close()
      modifies this
      ensures !open
    {
      open := false;
    }
  }

  /** Pressing the menu button twice leaves the menu as it was. */
  method ToggleTwice(menu: MobileMenu)
    modifies menu
    ensures menu.open == old(menu.open)
  {
    menu.Toggle();
    menu.Toggle();
  }

  /** A new menu opened with the button is open, and following a link then
      leaves it closed. */
  method OpenThenFollowLink() returns (openAfterButton: bool, openAfterLink: bool)
    ensures openAfterButton && !openAfterLink
  {
    var menu := new MobileMenu();
    menu.Toggle();
    openAfterButton := menu.open;
    menu.Close();
    openAfterLink := menu.open;
  }
}
