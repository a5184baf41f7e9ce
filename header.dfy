/**
 * The site header's decision rules: which in-page links there are and what
 * id each one targets, what a click on one does (close the mobile menu,
 * then push `/#id` off the landing page or scroll on it), when the header
 * counts as scrolled, and how the body's overflow follows the mobile menu.
 */
module Header {
  import opened Wrappers

  /** A navigation entry (`caption` is its `label`); `isRoute` absent is `false`. */
  datatype NavLink = NavLink(href: string, caption: string, isRoute: bool)

  const NavLinks: seq<NavLink> := [
    NavLink("#features", "Features", false),
    NavLink("/events", "Events", true),
    NavLink("#pricing", "Pricing", false),
    NavLink("#about", "About", false)
  ]

  /** The header turns opaque once the page is scrolled past this many pixels (`scrollY` is fractional). */
  const ScrollThreshold: real := 50.0

  /** Values of `document.body.style.overflow`. */
  const OverflowHidden := "hidden"
  const OverflowUnset := "unset"

  /** `href.substring(1)`: the href without its first character (`""` stays `""`). */
  function LinkId(href: string): (id: string)
    ensures href == [] ==> id == []
    ensures href != [] ==> [href[0]] + id == href
  {
    if href == [] then [] else href[1..]
  }

  /** The three hash links target the sections `features`, `pricing` and `about`; Events is a route. */
  lemma NavLinkTargets()
    ensures |NavLinks| == 4
    ensures forall i :: 0 <= i < |NavLinks| ==> (NavLinks[i].isRoute <==> NavLinks[i].href == "/events")
    ensures forall i :: 0 <= i < |NavLinks| && !NavLinks[i].isRoute ==> NavLinks[i].href[0] == '#'
    ensures LinkId(NavLinks[0].href) == "features"
    ensures LinkId(NavLinks[2].href) == "pricing"
    ensures LinkId(NavLinks[3].href) == "about"
  {
    assert "#features"[1..] == "features";
    assert "#pricing"[1..] == "pricing";
    assert "#about"[1..] == "about";
  }

  /** What a hash-link click asks of the browser: exactly one of the two. */
  datatype NavEffect = Push(url: string) | ScrollIntoView(id: string)

  /** The pathname and the hash (`window.location.hash`, `""` for an empty fragment) of a URL. */
  datatype Location = Location(pathname: string, hash: string)

  /** Index of the first `#` in `url`, or `|url|` when there is none. */
  function FirstHash(url: string): (k: nat)
    ensures k <= |url|
    ensures forall i :: 0 <= i < k ==> url[i] != '#'
    ensures k < |url| ==> url[k] == '#'
  {
    if url == [] then 0
    else if url[0] == '#' then 0
    else 1 + FirstHash(url[1..])
  }

  /** Splits a same-origin URL at its first `#`; an empty fragment leaves the hash empty. */
  function LocationOf(url: string): (loc: Location)
    ensures loc.pathname + (if FirstHash(url) < |url| then url[FirstHash(url)..] else "") == url
    ensures loc.hash == (if FirstHash(url) + 1 < |url| then url[FirstHash(url)..] else "")
    ensures loc.hash == "" || loc.hash[0] == '#'
  {
    var k := FirstHash(url);
    assert url == url[..k] + url[k..];
    Location(url[..k], if k + 1 < |url| then url[k..] else "")
  }

  /** The page-load effect: on `/` with a hash, scroll to `hash.substring(1)`; otherwise nothing. */
  function HashScrollTarget(loc: Location): (target: Option<string>)
    ensures target.Some? <==> loc.pathname == "/" && loc.hash != ""
    ensures target.Some? ==> [loc.hash[0]] + target.value == loc.hash
  {
    if loc.pathname == "/" && loc.hash != "" then Some(LinkId(loc.hash)) else None
  }

  /**
   * A click on a hash link away from `/` pushes `/#id`; arriving there, the
   * page-load effect scrolls to that same `id`. An empty id gives an empty
   * fragment, and then nothing is scrolled.
   */
  lemma PushedHashScrollsOnArrival(id: string)
    ensures LocationOf("/#" + id).pathname == "/"
    ensures id != "" ==> HashScrollTarget(LocationOf("/#" + id)) == Some(id)
    ensures id == "" ==> HashScrollTarget(LocationOf("/#" + id)) == None
  {
    var url := "/#" + id;
    assert url[0] == '/' && url[1] == '#';
    assert FirstHash(url[1..]) == 0;
    assert FirstHash(url) == 1;
    assert url[..1] == "/";
    assert url[1..][1..] == id;
  }

  /** The header's state, the body overflow it controls, and whether it is mounted. */
  class HeaderState {
    var pathname: string
    var scrolled: bool
    var mobileMenuOpen: bool
    var bodyOverflow: string
    var mounted: bool

    /** While mounted, the body overflow is `hidden` exactly when the mobile menu is open. */
    predicate Valid()
      reads this
    {
      mounted ==> bodyOverflow == (if mobileMenuOpen then OverflowHidden else OverflowUnset)
    }

    /** Mounting: the menu starts closed, and the scroll effect checks `scrollY` at once. */
    constructor(path: string, scrollY: real)
      ensures Valid() && mounted
      ensures pathname == path && !mobileMenuOpen && bodyOverflow == OverflowUnset
      ensures scrolled <==> scrollY > ScrollThreshold
    {
      pathname, scrolled, mobileMenuOpen, mounted := path, false, false, true;
      bodyOverflow := OverflowUnset;
      new;
      HandleScroll(scrollY);
    }

    /** `handleScroll`: the header counts as scrolled iff `scrollY` is past the threshold. */
    method HandleScroll(scrollY: real)
      modifies this
      ensures scrolled <==> scrollY > ScrollThreshold
      ensures pathname == old(pathname) && mobileMenuOpen == old(mobileMenuOpen)
      ensures bodyOverflow == old(bodyOverflow) && mounted == old(mounted)
    {
      scrolled := scrollY > ScrollThreshold;
    }

    /** The overflow effect that runs whenever `mobileMenuOpen` changes. */
    method SyncOverflow()
      modifies this
      ensures bodyOverflow == (if mobileMenuOpen then OverflowHidden else OverflowUnset)
      ensures pathname == old(pathname) && scrolled == old(scrolled)
      ensures mobileMenuOpen == old(mobileMenuOpen) && mounted == old(mounted)
    {
      if mobileMenuOpen {
        bodyOverflow := OverflowHidden;
      } else {
        bodyOverflow := OverflowUnset;
      }
    }

    /**
     * `handleNavClick`: close the menu, then off `/` push `/#id`, and on `/`
     * scroll to the section `id`.
     */
    method HandleNavClick(id: string) returns (effect: NavEffect)
      requires Valid() && mounted
      modifies this
      ensures Valid() && mounted
      ensures !mobileMenuOpen && bodyOverflow == OverflowUnset
      ensures pathname != "/" ==> effect == Push("/#" + id)
      ensures pathname == "/" ==> effect == ScrollIntoView(id)
      ensures pathname == old(pathname) && scrolled == old(scrolled)
    {
      mobileMenuOpen := false;
      SyncOverflow();
      if pathname != "/" {
        return Push("/#" + id);
      }
      effect := ScrollIntoView(id);
    }

    /** The mobile menu button. */
    method ToggleMenu()
      requires Valid() && mounted
      modifies this
      ensures Valid() && mounted
      ensures mobileMenuOpen == !old(mobileMenuOpen)
      ensures bodyOverflow == (if mobileMenuOpen then OverflowHidden else OverflowUnset)
      ensures pathname == old(pathname) && scrolled == old(scrolled)
    {
      mobileMenuOpen := !mobileMenuOpen;
      SyncOverflow();
    }

    /** Route links and auth buttons in the mobile menu close it. */
    method CloseMenu()
      requires Valid() && mounted
      modifies this
      ensures Valid() && mounted
      ensures !mobileMenuOpen && bodyOverflow == OverflowUnset
      ensures pathname == old(pathname) && scrolled == old(scrolled)
    {
      mobileMenuOpen := false;
      SyncOverflow();
    }

    /** Unmounting: the effect's cleanup restores the body overflow. */
    method Unmount()
      requires Valid() && mounted
      modifies this
      ensures Valid() && !mounted
      ensures bodyOverflow == OverflowUnset
      ensures pathname == old(pathname) && scrolled == old(scrolled) && mobileMenuOpen == old(mobileMenuOpen)
    {
      mounted := false;
      bodyOverflow := OverflowUnset;
    }
  }
}
