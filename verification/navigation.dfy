/**
 * Menu navigation driven by the button interrupt (`button_callback`).
 *
 * `menu_index` selects monitoring (0), configuration (1), training (2) or
 * history (3); `in_set_mode` and `current_param` are the configuration
 * sub-state. Every falling edge first passes the shared debounce test.
 */
module Navigation {
  import opened Common
  import opened Debounce

  datatype Button = Next | Back | Set

  const MenuCount: int := 4
  const TrainingMenu: int := 2
  const LastParam: int := 3

  /** A snapshot of `menu_index`, `in_set_mode` and `current_param`. */
  datatype Nav = Nav(menuIndex: int, inSetMode: bool, currentParam: int)

  /** The state at boot: monitoring, not configuring, parameter 0. */
  const Boot: Nav := Nav(0, false, 0)

  /**
   * What holds of every reachable navigation state: the menu and the
   * parameter are in range, the parameter is back at 0 whenever set mode is
   * off, and set mode is never on in the training menu (SET cannot enter it
   * there and NEXT/BACK cannot leave a menu while it is on).
   */
  predicate ValidNav(n: Nav) {
    && 0 <= n.menuIndex < MenuCount
    && 0 <= n.currentParam <= LastParam
    && (!n.inSetMode ==> n.currentParam == 0)
    && (n.inSetMode ==> n.menuIndex != TrainingMenu)
  }

  /** The effect of an edge that passed the debounce test. */
  function Press(n: Nav, b: Button): (r: Nav)
    ensures ValidNav(n) ==> ValidNav(r)
    ensures n.inSetMode && b != Set ==> r == n
    ensures b == Set && n.menuIndex == TrainingMenu ==> r == n
  {
    match b
    case Set =>
      if n.menuIndex != TrainingMenu then
        if !n.inSetMode then n.(inSetMode := true, currentParam := 0)
        else if n.currentParam + 1 > LastParam then n.(inSetMode := false, currentParam := 0)
        else n.(currentParam := n.currentParam + 1)
      else n
    case Next =>
      if !n.inSetMode then n.(menuIndex := (n.menuIndex + 1) % MenuCount) else n
    case Back =>
      if !n.inSetMode then n.(menuIndex := (n.menuIndex + 3) % MenuCount) else n
  }

  /** Whether the interrupt beeps for an accepted edge: exactly when the edge changes the navigation state. */
  predicate Beeps(n: Nav, b: Button)
    ensures Beeps(n, b) <==> Press(n, b) != n
  {
    match b
    case Set => n.menuIndex != TrainingMenu
    case Next | Back => !n.inSetMode
  }

  /** One call of the interrupt handler: the new state, the new debounce timestamp and the cues. */
  datatype EdgeOutcome = EdgeOutcome(nav: Nav, last: U32, cues: seq<Cue>)

  function OnEdge(n: Nav, last: U32, b: Button, now: U32): (o: EdgeOutcome)
    ensures !EdgeAccepted(last, now) ==> o == EdgeOutcome(n, last, [])
    ensures EdgeAccepted(last, now) ==> o.last == now
  {
    if !EdgeAccepted(last, now) then EdgeOutcome(n, last, [])
    else EdgeOutcome(Press(n, b), now, if Beeps(n, b) then [Beep] else [])
  }

  /** NEXT then BACK (both accepted, outside set mode) returns to the same menu, and BACK then NEXT too. */
  lemma NextBackInverse(n: Nav)
    requires ValidNav(n) && !n.inSetMode
    ensures Press(Press(n, Next), Back) == n
    ensures Press(Press(n, Back), Next) == n
  {
  }

  /** Four NEXT presses outside set mode come back to the same menu, visiting all four. */
  lemma NextCyclesAllMenus(n: Nav)
    requires ValidNav(n) && !n.inSetMode
    ensures Press(Press(Press(Press(n, Next), Next), Next), Next) == n
    ensures {n.menuIndex, Press(n, Next).menuIndex, Press(Press(n, Next), Next).menuIndex,
             Press(Press(Press(n, Next), Next), Next).menuIndex} == {0, 1, 2, 3}
  {
  }

  /**
   * SET outside the training menu: the first press enters set mode at
   * parameter 0, the next three walk parameters 1..3, and the fifth leaves set
   * mode with the parameter back at 0, so a sixth starts again at 0.
   */
  lemma SetWalksParameters(n: Nav)
    requires ValidNav(n) && !n.inSetMode && n.menuIndex != TrainingMenu
    ensures Press(n, Set) == n.(inSetMode := true, currentParam := 0)
    ensures Press(Press(n, Set), Set).currentParam == 1
    ensures Press(Press(Press(n, Set), Set), Set).currentParam == 2
    ensures Press(Press(Press(Press(n, Set), Set), Set), Set).currentParam == 3
    ensures Press(Press(Press(Press(Press(n, Set), Set), Set), Set), Set) == n
    ensures Press(Press(Press(Press(Press(Press(n, Set), Set), Set), Set), Set), Set) == Press(n, Set)
  {
  }

  /** Leaving set mode from the last parameter resets the parameter; the next SET starts over at 0. */
  lemma ExitResetsParameter(n: Nav)
    requires ValidNav(n) && n.inSetMode && n.currentParam == LastParam
    ensures Press(n, Set) == n.(inSetMode := false, currentParam := 0)
    ensures Press(Press(n, Set), Set).inSetMode && Press(Press(n, Set), Set).currentParam == 0
  {
  }

  /**
   * The handler does not exempt the training menu from NEXT and BACK: an
   * accepted NEXT edge there moves to the history menu, even though the
   * training screen also polls NEXT to cycle its objective.
   */
  lemma NextLeavesTraining(n: Nav)
    requires ValidNav(n) && n.menuIndex == TrainingMenu
    ensures Press(n, Next).menuIndex == 3 && ScreenFor(Press(n, Next)) == HistoryScreen
    ensures Press(n, Back).menuIndex == 1 && ScreenFor(Press(n, Back)) == ConfigScreen
  {
  }

  /**
   * The handler exempts only the training menu from SET: an accepted SET edge
   * on the history menu enters set mode, so the configuration screen is shown
   * instead of the history screen whose SET-and-NEXT clear polls SET.
   */
  lemma SetLeavesHistory(n: Nav)
    requires ValidNav(n) && !n.inSetMode && n.menuIndex == 3
    ensures ScreenFor(n) == HistoryScreen
    ensures Press(n, Set).inSetMode && ScreenFor(Press(n, Set)) == ConfigScreen
  {
  }

  /** A stream of edges, each a button and the millisecond at which it fell, handled one at a time. */
  function Feed(n: Nav, last: U32, edges: seq<(Button, U32)>): (o: EdgeOutcome)
    ensures |o.cues| <= |edges|
    ensures o.last == last || exists k :: 0 <= k < |edges| && o.last == edges[k].1
    decreases |edges|
  {
    if edges == [] then EdgeOutcome(n, last, [])
    else
      var first := OnEdge(n, last, edges[0].0, edges[0].1);
      var rest := Feed(first.nav, first.last, edges[1..]);
      EdgeOutcome(rest.nav, rest.last, first.cues + rest.cues)
  }

  /** However many edges arrive, the navigation state stays valid. */
  lemma {:induction false} FeedPreservesValid(n: Nav, last: U32, edges: seq<(Button, U32)>)
    requires ValidNav(n)
    ensures ValidNav(Feed(n, last, edges).nav)
    decreases |edges|
  {
    if edges != [] {
      var first := OnEdge(n, last, edges[0].0, edges[0].1);
      FeedPreservesValid(first.nav, first.last, edges[1..]);
    }
  }

  /** Edges that all fall inside the debounce window of the last accepted one change nothing at all. */
  lemma {:induction false} BounceIgnored(n: Nav, last: U32, edges: seq<(Button, U32)>)
    requires forall k :: 0 <= k < |edges| ==> !EdgeAccepted(last, edges[k].1)
    ensures Feed(n, last, edges) == EdgeOutcome(n, last, [])
    decreases |edges|
  {
    if edges != [] {
      BounceIgnored(n, last, edges[1..]);
    }
  }

  /** The interrupt state, changed in place by `button_callback`. */
  class Navigator {
    var menuIndex: int
    var inSetMode: bool
    var currentParam: int

    function Snapshot(): Nav
      reads this
    {
      Nav(menuIndex, inSetMode, currentParam)
    }

    constructor ()
      ensures Snapshot() == Boot && ValidNav(Snapshot())
    {
      menuIndex, inSetMode, currentParam := 0, false, 0;
    }

    /** `button_callback` for a falling edge of button `b` at millisecond `now`. */
    method OnButton(b: Button, deb: Debouncer, now: U32) returns (cues: seq<Cue>)
      modifies this, deb
      ensures var o := OnEdge(old(Snapshot()), old(deb.last), b, now);
        Snapshot() == o.nav && deb.last == o.last && cues == o.cues
      ensures old(ValidNav(Snapshot())) ==> ValidNav(Snapshot())
    {
      cues := [];
      var ok := deb.AcceptEdge(now);
      if !ok {
        return;
      }
      match b
      case Set =>
        if menuIndex != TrainingMenu {
          if !inSetMode {
            inSetMode := true;
            currentParam := 0;
          } else {
            currentParam := currentParam + 1;
            if currentParam > LastParam {
              inSetMode := false;
              currentParam := 0;
            }
          }
          cues := [Beep];
        }
      case Next =>
        if !inSetMode {
          menuIndex := (menuIndex + 1) % MenuCount;
          cues := [Beep];
        }
      case Back =>
        if !inSetMode {
          menuIndex := (menuIndex + 3) % MenuCount;
          cues := [Beep];
        }
    }
  }

  /** The screens of the main loop. */
  datatype Screen = MonitorScreen | ConfigScreen | TrainingScreen | HistoryScreen

  /** The main loop's dispatch: set mode shows configuration whatever the menu; otherwise the menu decides. */
  function ScreenFor(n: Nav): (s: Screen)
    requires ValidNav(n)
    ensures n.inSetMode ==> s == ConfigScreen
    ensures s == TrainingScreen <==> n.menuIndex == TrainingMenu
    ensures s == ConfigScreen <==> n.inSetMode || n.menuIndex == 1
  {
    if n.inSetMode then ConfigScreen
    else if n.menuIndex == 0 then MonitorScreen
    else if n.menuIndex == 1 then ConfigScreen
    else if n.menuIndex == 2 then TrainingScreen
    else HistoryScreen
  }
}
