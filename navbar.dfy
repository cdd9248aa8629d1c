/**
 * The site's navigation bar (components/Layout/Navbar.tsx).
 *
 * Two independent flags live in the component: `scrolled`, the compact
 * mode, driven by the page's vertical scroll position with a hysteresis
 * band, and `isOpen`, the mobile menu, flipped by the menu button and
 * closed on every navigation. The bar also reads the router's current
 * pathname to highlight one of its four links.
 *
 * A scroll event carries the page's vertical offset in whole pixels.
 */
module Navbar {

  /** Above this offset the bar turns compact. */
  const CompactAbove: int := 60
  /** Below this offset the bar turns back to full size. */
  const ExpandBelow: int := 40

  datatype NavItem = NavItem(text: string, path: string)

  /** The four links of the bar, in display order. */
  const NavItems: seq<NavItem> := [
    // the first label is kept exactly as the source file spells it
    NavItem("InÃ­cio", "/"),
    NavItem("Ecossistema", "/ecosystem"),
    NavItem("Quem Somos", "/about"),
    NavItem("Contato", "/contact")
  ]

  /** Size handed to the call-to-action button. */
  datatype ButtonSize = Normal | Small

  // ---------------------------------------------------------------------
  // Compact mode: the scroll handler and the history of scroll positions
  // ---------------------------------------------------------------------

  /** The new value of `scrolled` after one scroll event at offset `y`,
      written with the handler's two guarded branches. */
  function ScrollStep(scrolled: bool, y: int): (r: bool)
    ensures y > CompactAbove ==> r
    ensures y < ExpandBelow ==> !r
    ensures ExpandBelow <= y <= CompactAbove ==> r == scrolled
  {
    if y > CompactAbove && !scrolled then true
    else if y < ExpandBelow && scrolled then false
    else scrolled
  }

  /** `scrolled` after handling the offsets `ys` in order, starting from `scrolled`. */
  function ScrollFold(scrolled: bool, ys: seq<int>): bool
    decreases ys
  {
    if ys == [] then scrolled else ScrollFold(ScrollStep(scrolled, ys[0]), ys[1..])
  }

  predicate InDeadZone(y: int)
  {
    ExpandBelow <= y <= CompactAbove
  }

  /** Handling one more offset extends the history by one step. */
  lemma {:induction false} ScrollFoldSnoc(scrolled: bool, ys: seq<int>, y: int)
    ensures ScrollFold(scrolled, ys + [y]) == ScrollStep(ScrollFold(scrolled, ys), y)
    decreases ys
  {
    if ys != [] {
      assert (ys + [y])[1..] == ys[1..] + [y];
      ScrollFoldSnoc(ScrollStep(scrolled, ys[0]), ys[1..], y);
    }
  }

  /** Handling the same offset twice in a row is the same as handling it once. */
  lemma ScrollStepIdempotent(scrolled: bool, y: int)
    ensures ScrollStep(ScrollStep(scrolled, y), y) == ScrollStep(scrolled, y)
  {
  }

  /** Offsets that stay inside [40, 60], both ends included, never change the mode. */
  lemma {:induction false} DeadZoneIsSticky(scrolled: bool, ys: seq<int>)
    requires forall i :: 0 <= i < |ys| ==> InDeadZone(ys[i])
    ensures ScrollFold(scrolled, ys) == scrolled
    decreases ys
  {
    if ys != [] {
      DeadZoneIsSticky(ScrollStep(scrolled, ys[0]), ys[1..]);
    }
  }

  /** The bar turns compact only after some offset above 60 was seen. */
  lemma {:induction false} CompactOnlyAfterExceeding(scrolled: bool, ys: seq<int>)
    requires !scrolled && ScrollFold(scrolled, ys)
    ensures exists i :: 0 <= i < |ys| && ys[i] > CompactAbove
    decreases ys
  {
    if ys[0] > CompactAbove {
    } else {
      CompactOnlyAfterExceeding(ScrollStep(scrolled, ys[0]), ys[1..]);
      var i :| 0 <= i < |ys[1..]| && ys[1..][i] > CompactAbove;
      assert ys[i + 1] > CompactAbove;
    }
  }

  /** The bar leaves compact mode only after some offset below 40 was seen. */
  lemma {:induction false} ExpandOnlyAfterDropping(scrolled: bool, ys: seq<int>)
    requires scrolled && !ScrollFold(scrolled, ys)
    ensures exists i :: 0 <= i < |ys| && ys[i] < ExpandBelow
    decreases ys
  {
    if ys[0] < ExpandBelow {
    } else {
      ExpandOnlyAfterDropping(ScrollStep(scrolled, ys[0]), ys[1..]);
      var i :| 0 <= i < |ys[1..]| && ys[1..][i] < ExpandBelow;
      assert ys[i + 1] < ExpandBelow;
    }
  }

  /** The mode depends on the history only through its last offset outside
      the dead zone: above 60 means compact, below 40 means full size,
      whatever came before and whatever dead-zone offsets followed. */
  lemma {:induction false} LastDecisiveOffsetWins(scrolled: bool, before: seq<int>, y: int, after: seq<int>)
    requires !InDeadZone(y)
    requires forall i :: 0 <= i < |after| ==> InDeadZone(after[i])
    ensures ScrollFold(scrolled, before + [y] + after) == (y > CompactAbove)
  {
    ScrollFoldSnoc(scrolled, before, y);
    ScrollFoldAppend(scrolled, before + [y], after);
    DeadZoneIsSticky(ScrollFold(scrolled, before + [y]), after);
  }

  /** Handling `xs` then `ys` is handling their concatenation. */
  lemma {:induction false} ScrollFoldAppend(scrolled: bool, xs: seq<int>, ys: seq<int>)
    ensures ScrollFold(scrolled, xs + ys) == ScrollFold(ScrollFold(scrolled, xs), ys)
    decreases xs
  {
    if xs == [] {
      assert xs + ys == ys;
    } else {
      assert (xs + ys)[1..] == xs[1..] + ys;
      ScrollFoldAppend(ScrollStep(scrolled, xs[0]), xs[1..], ys);
    }
  }

  // ---------------------------------------------------------------------
  // The whole component as a state machine over events
  // ---------------------------------------------------------------------

  datatype NavState = NavState(isOpen: bool, scrolled: bool, pathname: string)

  /** What reaches the component: a scroll event, a press of the mobile
      menu button, a router location change (any link, the logo, the desktop
      call-to-action, the browser), or a click on a link inside the open
      mobile menu, which first closes the menu and then navigates. */
  datatype NavEvent =
    | Scroll(y: int)
    | MenuButton
    | LocationChange(path: string)
    | MobileLinkClick(target: string)

  /** The state when the component mounts on `pathname`. */
  function Initial(pathname: string): (s: NavState)
    ensures !s.isOpen && !s.scrolled && s.pathname == pathname
  {
    NavState(false, false, pathname)
  }

  /** The location effect: every new location closes the menu. */
  function Navigated(s: NavState, path: string): NavState
  {
    s.(isOpen := false, pathname := path)
  }

  /** One event. Compact mode moves only on scroll events, and then by one
      hysteresis step; a scroll event touches nothing else; the menu button
      flips the menu and keeps the path; any navigation closes the menu and
      lands on its target. */
  function Step(s: NavState, e: NavEvent): (r: NavState)
    ensures r.scrolled == if e.Scroll? then ScrollStep(s.scrolled, e.y) else s.scrolled
    ensures e.Scroll? ==> r.isOpen == s.isOpen && r.pathname == s.pathname
    ensures e.MenuButton? ==> r.isOpen == !s.isOpen && r.pathname == s.pathname
    ensures e.LocationChange? ==> !r.isOpen && r.pathname == e.path
    ensures e.MobileLinkClick? ==> !r.isOpen && r.pathname == e.target
  {
    match e
    case Scroll(y) => s.(scrolled := ScrollStep(s.scrolled, y))
    case MenuButton => s.(isOpen := !s.isOpen)
    case LocationChange(path) => Navigated(s, path)
    case MobileLinkClick(path) => Navigated(s.(isOpen := false), path)
  }

  function Run(s: NavState, es: seq<NavEvent>): NavState
    decreases es
  {
    if es == [] then s else Run(Step(s, es[0]), es[1..])
  }

  /** The offsets of the scroll events among `es`, in order. */
  function ScrollOffsets(es: seq<NavEvent>): seq<int>
  {
    if es == [] then []
    else (if es[0].Scroll? then [es[0].y] else []) + ScrollOffsets(es[1..])
  }

  /** `es` with its scroll events taken out. */
  function WithoutScrolls(es: seq<NavEvent>): (r: seq<NavEvent>)
    ensures forall i :: 0 <= i < |r| ==> !r[i].Scroll?
  {
    if es == [] then []
    else (if es[0].Scroll? then [] else [es[0]]) + WithoutScrolls(es[1..])
  }

  /** Compact mode sees only the scroll events: the menu button and
      navigation never change it. */
  lemma {:induction false} ScrolledFollowsScrollsOnly(s: NavState, es: seq<NavEvent>)
    ensures Run(s, es).scrolled == ScrollFold(s.scrolled, ScrollOffsets(es))
    decreases es
  {
    if es != [] {
      ScrolledFollowsScrollsOnly(Step(s, es[0]), es[1..]);
      if es[0].Scroll? {
        assert ([es[0].y] + ScrollOffsets(es[1..]))[1..] == ScrollOffsets(es[1..]);
      } else {
        assert ScrollOffsets(es) == ScrollOffsets(es[1..]);
      }
    }
  }

  /** Two states that agree on the menu and the path keep agreeing on them. */
  lemma {:induction false} MenuIgnoresScrolled(s: NavState, t: NavState, es: seq<NavEvent>)
    requires s.isOpen == t.isOpen && s.pathname == t.pathname
    ensures Run(s, es).isOpen == Run(t, es).isOpen
    ensures Run(s, es).pathname == Run(t, es).pathname
    decreases es
  {
    if es != [] {
      MenuIgnoresScrolled(Step(s, es[0]), Step(t, es[0]), es[1..]);
    }
  }

  /** The menu and the path never see scroll events: dropping every scroll
      event from the history leaves them as they were. */
  lemma {:induction false} MenuIndependentOfScrolls(s: NavState, es: seq<NavEvent>)
    ensures Run(s, es).isOpen == Run(s, WithoutScrolls(es)).isOpen
    ensures Run(s, es).pathname == Run(s, WithoutScrolls(es)).pathname
    decreases es
  {
    if es != [] {
      MenuIndependentOfScrolls(Step(s, es[0]), es[1..]);
      if es[0].Scroll? {
        assert WithoutScrolls(es) == WithoutScrolls(es[1..]);
        MenuIgnoresScrolled(Step(s, es[0]), s, WithoutScrolls(es[1..]));
      } else {
        assert WithoutScrolls(es)[0] == es[0];
        assert WithoutScrolls(es)[1..] == WithoutScrolls(es[1..]);
      }
    }
  }

  /** `n` presses of the menu button. */
  function Presses(n: nat): (r: seq<NavEvent>)
    ensures |r| == n && forall i :: 0 <= i < n ==> r[i] == MenuButton
  {
    seq(n, _ => MenuButton)
  }

  /** After `n` presses the menu is flipped iff `n` is odd; from closed it
      is open iff `n` is odd. Compact mode and the path stay as they were. */
  lemma {:induction false} MenuParity(s: NavState, n: nat)
    ensures Run(s, Presses(n)).isOpen == (s.isOpen != (n % 2 == 1))
    ensures Run(s, Presses(n)).scrolled == s.scrolled
    ensures Run(s, Presses(n)).pathname == s.pathname
    decreases n
  {
    if n > 0 {
      assert Presses(n)[1..] == Presses(n - 1);
      MenuParity(Step(s, MenuButton), n - 1);
    }
  }

  /** Whatever happened before, a history that ends with a navigation
      leaves the menu closed on the new path. */
  lemma {:induction false} NavigationClosesMenu(s: NavState, es: seq<NavEvent>, e: NavEvent)
    requires e.LocationChange? || e.MobileLinkClick?
    ensures !Run(s, es + [e]).isOpen
    ensures Run(s, es + [e]).pathname == (if e.LocationChange? then e.path else e.target)
  {
    RunSnoc(s, es, e);
  }

  lemma {:induction false} RunSnoc(s: NavState, es: seq<NavEvent>, e: NavEvent)
    ensures Run(s, es + [e]) == Step(Run(s, es), e)
    decreases es
  {
    if es != [] {
      assert (es + [e])[1..] == es[1..] + [e];
      RunSnoc(Step(s, es[0]), es[1..], e);
    }
  }

  // ---------------------------------------------------------------------
  // Views derived from the state
  // ---------------------------------------------------------------------

  /** The desktop call-to-action is small exactly in compact mode. */
  function CtaSize(scrolled: bool): (r: ButtonSize)
    ensures r == Small <==> scrolled
    ensures r == Normal <==> !scrolled
  {
    if scrolled then Small else Normal
  }

  // ---------------------------------------------------------------------
  // The component's mutable state
  // ---------------------------------------------------------------------

  class Navbar {
    var isOpen: bool
    var scrolled: bool
    /** The router's current pathname, as the component reads it. */
    var pathname: string

    function State(): NavState
      reads this
    {
      NavState(isOpen, scrolled, pathname)
    }

    /** Both flags start false. */
    constructor (path: string)
      ensures State() == Initial(path)
      ensures !isOpen && !scrolled && pathname == path
    {
      isOpen := false;
      scrolled := false;
      pathname := path;
    }

    /** The scroll handler. */
    method OnScroll(y: int)
      modifies this
      ensures State() == Step(old(State()), Scroll(y))
      ensures y > CompactAbove ==> scrolled
      ensures y < ExpandBelow ==> !scrolled
      ensures InDeadZone(y) ==> scrolled == old(scrolled)
      ensures isOpen == old(isOpen) && pathname == old(pathname)
    {
      if y > CompactAbove && !scrolled {
        scrolled := true;
      } else if y < ExpandBelow && scrolled {
        scrolled := false;
      }
    }

    /** The mobile menu button. */
    method ToggleMenu()
      modifies this
      ensures State() == Step(old(State()), MenuButton)
      ensures isOpen == !old(isOpen)
      ensures scrolled == old(scrolled) && pathname == old(pathname)
    {
      isOpen := !isOpen;
    }

    /** The effect run on every new router location. */
    method OnLocationChange(path: string)
      modifies this
      ensures State() == Step(old(State()), LocationChange(path))
      ensures !isOpen && pathname == path
      ensures scrolled == old(scrolled)
    {
      pathname := path;
      isOpen := false;
    }

    /** A click on a link (or the call-to-action) inside the mobile menu:
        its own handler closes the menu, then the router navigates. */
    method OnMobileLinkClick(path: string)
      modifies this
      ensures State() == Step(old(State()), MobileLinkClick(path))
      ensures !isOpen && pathname == path
      ensures scrolled == old(scrolled)
    {
      isOpen := false;
      OnLocationChange(path);
    }

    function CurrentCtaSize(): (r: ButtonSize)
      reads this
      ensures r == Small <==> scrolled
    {
      CtaSize(scrolled)
    }

    /** Whether the desktop link at index `i` is styled as the current one
        and carries the indicator: its path is the current pathname, and
        then no other link's is. */
    function Highlighted(i: nat): (r: bool)
      requires i < |NavItems|
      reads this
      ensures r <==> pathname == NavItems[i].path
      ensures r ==> forall j :: 0 <= j < |NavItems| && j != i ==> NavItems[j].path != pathname
    {
      pathname == NavItems[i].path
    }
  }

  /** The four paths are distinct, so at most one link is highlighted. */
  lemma AtMostOneHighlighted(nav: Navbar, i: nat, j: nat)
    requires i < |NavItems| && j < |NavItems|
    requires nav.Highlighted(i) && nav.Highlighted(j)
    ensures i == j
  {
  }

  /** On the path of link `i`, exactly link `i` is highlighted. */
  lemma HighlightOnOwnPath(nav: Navbar, i: nat, j: nat)
    requires i < |NavItems| && j < |NavItems|
    requires nav.pathname == NavItems[i].path
    ensures nav.Highlighted(j) <==> i == j
  {
  }

  /** The offsets 0, 70, 50, 35, 45, 65 leave the bar full, compact, compact,
      full, full, compact. */
  method ScrollScenario() returns (trace: seq<bool>)
    ensures trace == [false, true, true, false, false, true]
  {
    var nav := new Navbar("/");
    nav.OnScroll(0);
    trace := [nav.scrolled];
    nav.OnScroll(70);
    trace := trace + [nav.scrolled];
    nav.OnScroll(50);
    trace := trace + [nav.scrolled];
    nav.OnScroll(35);
    trace := trace + [nav.scrolled];
    nav.OnScroll(45);
    trace := trace + [nav.scrolled];
    nav.OnScroll(65);
    trace := trace + [nav.scrolled];
  }

  /** On "/", opening the menu and clicking its "/contact" link lands on
      "/contact" with the menu closed. */
  method MenuScenario() returns (openedBefore: bool, openAfter: bool, path: string)
    ensures openedBefore && !openAfter && path == "/contact"
  {
    var nav := new Navbar("/");
    nav.ToggleMenu();
    openedBefore := nav.isOpen;
    nav.OnMobileLinkClick("/contact");
    openAfter, path := nav.isOpen, nav.pathname;
  }
}
