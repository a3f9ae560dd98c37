/** Navigation over the page graph: which pages can be reached from which by
    clicking link buttons, and the shortest such routes (the routes a
    breadth-first search over `links` finds). */
module Routes {
  import opened Wrappers
  import opened Pages

  /** Some button on page `a` leads to page `b`. */
  predicate Edge(a: PageId, b: PageId)
  {
    b in Links(a)
  }

  /** `route` lists the pages visited from `from` to `to`, each step a link. */
  predicate IsRoute(route: seq<PageId>, from: PageId, to: PageId)
  {
    && |route| > 0
    && route[0] == from
    && route[|route| - 1] == to
    && forall i :: 0 <= i < |route| - 1 ==> Edge(route[i], route[i + 1])
  }

  /** No route from `from` to `to` visits fewer pages than `route`. */
  ghost predicate IsShortestRoute(route: seq<PageId>, from: PageId, to: PageId)
  {
    IsRoute(route, from, to) && forall other :: IsRoute(other, from, to) ==> |route| <= |other|
  }

  /** Clicks a route takes: one button per step. */
  function Hops(route: seq<PageId>): nat
  {
    if |route| == 0 then 0 else |route| - 1
  }

  // ---------------------------------------------------------------------
  // Facts about any route

  /** A route between two different pages takes at least one step. */
  lemma RouteBetweenDifferentPages(route: seq<PageId>, from: PageId, to: PageId)
    requires IsRoute(route, from, to) && from != to
    ensures |route| >= 2
  {
  }

  /** A one-step route is a direct link. */
  lemma OneStepRoute(route: seq<PageId>, from: PageId, to: PageId)
    requires IsRoute(route, from, to) && |route| == 2
    ensures Edge(from, to)
  {
    assert Edge(route[0], route[1]);
  }

  /** A two-step route passes through a page linked from `from` that links to `to`. */
  lemma TwoStepRoute(route: seq<PageId>, from: PageId, to: PageId)
    requires IsRoute(route, from, to) && |route| == 3
    ensures Edge(from, route[1]) && Edge(route[1], to)
  {
    assert Edge(route[0], route[1]);
    assert Edge(route[1], route[2]);
  }

  /** The last step of a route that moves arrives by a link into `to`. */
  lemma LastStep(route: seq<PageId>, from: PageId, to: PageId)
    requires IsRoute(route, from, to) && |route| >= 2
    ensures Edge(route[|route| - 2], to)
  {
    assert Edge(route[|route| - 2], route[|route| - 1]);
  }

  /** Joining a route to `mid` and a route from `mid`. */
  lemma {:induction false} JoinRoutes(r1: seq<PageId>, r2: seq<PageId>, from: PageId, mid: PageId, to: PageId)
    requires IsRoute(r1, from, mid) && IsRoute(r2, mid, to)
    ensures IsRoute(r1 + r2[1..], from, to)
    ensures |r1 + r2[1..]| == |r1| + |r2| - 1
  {
    var r := r1 + r2[1..];
    forall i | 0 <= i < |r| - 1
      ensures Edge(r[i], r[i + 1])
    {
      if i < |r1| - 1 {
        assert Edge(r1[i], r1[i + 1]);
      } else {
        var j := i - |r1| + 1;
        assert r[i] == r2[j] && r[i + 1] == r2[j + 1];
        assert Edge(r2[j], r2[j + 1]);
      }
    }
    if |r2| == 1 {
      assert r == r1;
    } else {
      assert r[|r| - 1] == r2[|r2| - 1];
    }
  }

  /** Every prefix of a shortest route is a shortest route to where it ends:
      the property that lets a breadth-first search build routes step by step. */
  lemma ShortestRoutePrefix(route: seq<PageId>, from: PageId, to: PageId, k: nat)
    requires IsShortestRoute(route, from, to) && k < |route|
    ensures IsShortestRoute(route[..k + 1], from, route[k])
  {
    var prefix := route[..k + 1];
    var rest := route[k..];
    assert IsRoute(prefix, from, route[k]) by {
      forall i | 0 <= i < |prefix| - 1
        ensures Edge(prefix[i], prefix[i + 1])
      {
        assert Edge(route[i], route[i + 1]);
      }
    }
    assert IsRoute(rest, route[k], to) by {
      forall i | 0 <= i < |rest| - 1
        ensures Edge(rest[i], rest[i + 1])
      {
        assert Edge(route[k + i], route[k + i + 1]);
      }
    }
    forall other | IsRoute(other, from, route[k])
      ensures |prefix| <= |other|
    {
      JoinRoutes(other, rest, from, route[k], to);
    }
  }

  // ---------------------------------------------------------------------
  // The concrete graph

  /** Only the arena page leads to the rookie and special arenas, and the
      main page leads to the Ark but not to the arena. */
  lemma ArenaLinks(a: PageId)
    ensures Edge(a, RookieArena) <==> a == Arena
    ensures Edge(a, SpecialArena) <==> a == Arena
    ensures Edge(Main, Ark) && Edge(Ark, Arena) && !Edge(Main, Arena)
  {
    match a
    case _ =>
  }

  /** `page_main` reaches `page_arena` in two clicks, through `page_ark`, and
      in no fewer. */
  lemma MainToArena()
    ensures IsShortestRoute([Main, Ark, Arena], Main, Arena)
    ensures Links(Main)[Ark] == MAIN_GOTO_ARK && Links(Ark)[Arena] == ARK_GOTO_ARENA
  {
    ArenaLinks(Main);
    forall other | IsRoute(other, Main, Arena)
      ensures 3 <= |other|
    {
      RouteBetweenDifferentPages(other, Main, Arena);
      if |other| == 2 {
        OneStepRoute(other, Main, Arena);
      }
    }
  }

  /** A page only the arena leads to takes three clicks from `page_main`. */
  lemma {:induction false} ThroughArena(dest: PageId)
    requires dest == RookieArena || dest == SpecialArena
    ensures IsShortestRoute([Main, Ark, Arena, dest], Main, dest)
  {
    ArenaLinks(Main);
    forall other | IsRoute(other, Main, dest)
      ensures 4 <= |other|
    {
      RouteBetweenDifferentPages(other, Main, dest);
      if |other| == 2 {
        OneStepRoute(other, Main, dest);
        ArenaLinks(Main);
      } else if |other| == 3 {
        TwoStepRoute(other, Main, dest);
        ArenaLinks(other[1]);
      }
    }
  }

  /** `page_rookie_arena` and `page_special_arena` are three clicks from
      `page_main`: Ark, arena, then the mode's own button. */
  lemma MainToArenaModes()
    ensures IsShortestRoute([Main, Ark, Arena, RookieArena], Main, RookieArena)
    ensures IsShortestRoute([Main, Ark, Arena, SpecialArena], Main, SpecialArena)
    ensures Links(Arena)[RookieArena] == ARENA_GOTO_ROOKIE_ARENA
    ensures Links(Arena)[SpecialArena] == ARENA_GOTO_SPECIAL_ARENA
  {
    ThroughArena(RookieArena);
    ThroughArena(SpecialArena);
  }

  /** Every page other than main, destroy and commission links to main. */
  lemma LinksToMain(p: PageId)
    requires p != Main && p != Destroy && p != Commission
    ensures Edge(p, Main)
  {
    match p
    case _ =>
  }

  /** The route back to `page_main`: `page_destroy` goes through the reward
      page, `page_commission` through the outpost, every other page links
      to main itself. */
  function RouteToMain(p: PageId): (route: seq<PageId>)
    ensures IsRoute(route, p, Main)
    ensures Hops(route) <= 2
    ensures Hops(route) == (if p == Main then 0 else if p == Destroy || p == Commission then 2 else 1)
  {
    if p == Main then [Main]
    else if p == Destroy then [Destroy, Reward, Main]
    else if p == Commission then [Commission, Outpost, Main]
    else
      LinksToMain(p);
      [p, Main]
  }

  /** `RouteToMain` is a shortest route: every page reaches `page_main` in at
      most two clicks, and the two pages that need two cannot do it in one. */
  lemma RouteToMainIsShortest(p: PageId)
    ensures IsShortestRoute(RouteToMain(p), p, Main)
  {
    var route := RouteToMain(p);
    forall other | IsRoute(other, p, Main)
      ensures |route| <= |other|
    {
      if p != Main {
        RouteBetweenDifferentPages(other, p, Main);
        if |other| == 2 {
          OneStepRoute(other, p, Main);
        }
      }
    }
  }

  /** No page links to `page_special_interception` (the link from the
      interception page is commented out), so no other page reaches it;
      `page_unknown` likewise has no incoming link. */
  lemma NoWayIn(p: PageId, route: seq<PageId>)
    requires p != SpecialInterception
    ensures Edge(SpecialInterception, Interception) && Edge(SpecialInterception, Main)
    ensures !IsRoute(route, p, SpecialInterception)
    ensures p != Unknown ==> !IsRoute(route, p, Unknown)
  {
    forall a: PageId
      ensures !Edge(a, SpecialInterception) && !Edge(a, Unknown)
    {
      match a
      case _ =>
    }
    if IsRoute(route, p, SpecialInterception) {
      RouteBetweenDifferentPages(route, p, SpecialInterception);
      LastStep(route, p, SpecialInterception);
    }
    if p != Unknown && IsRoute(route, p, Unknown) {
      RouteBetweenDifferentPages(route, p, Unknown);
      LastStep(route, p, Unknown);
    }
  }

  /** `page_unknown` has no check button and one link, `GOTO_MAIN` to
      `page_main`, so from it the only first step is to main. */
  lemma UnknownLeadsToMain(b: PageId)
    ensures CheckButton(Unknown) == None
    ensures Edge(Unknown, b) <==> b == Main
    ensures Links(Unknown) == map[Main := GOTO_MAIN]
    ensures RouteToMain(Unknown) == [Unknown, Main]
  {
  }

  /** A route from `page_main` to every page that has a way in. */
  function RouteFromMain(p: PageId): (route: Option<seq<PageId>>)
    ensures route.None? <==> p == Unknown || p == SpecialInterception
    ensures route.Some? ==> |route.value| > 0 && route.value[0] == Main && route.value[|route.value| - 1] == p
    ensures route.Some? ==> Hops(route.value) <= 3
  {
    match p
    case Unknown => None
    case SpecialInterception => None
    case Main => Some([Main])
    case Reward => Some([Main, Reward])
    case Friend => Some([Main, Friend])
    case Daily => Some([Main, Daily])
    case Shop => Some([Main, Shop])
    case CashShop => Some([Main, CashShop])
    case Team => Some([Main, Team])
    case Inventory => Some([Main, Inventory])
    case Pass => Some([Main, Pass])
    case Ark => Some([Main, Ark])
    case Outpost => Some([Main, Outpost])
    case Mailbox => Some([Main, Mailbox])
    case Recruit => Some([Main, Recruit])
    case Event => Some([Main, Event])
    case Destroy => Some([Main, Reward, Destroy])
    case Conversation => Some([Main, Team, Conversation])
    case TribeTower => Some([Main, Ark, TribeTower])
    case Interception => Some([Main, Ark, Interception])
    case SimulationRoom => Some([Main, Ark, SimulationRoom])
    case Arena => Some([Main, Ark, Arena])
    case Ranking => Some([Main, Ark, Ranking])
    case Commission => Some([Main, Outpost, Commission])
    case Story1 => Some([Main, Event, Story1])
    case Story2 => Some([Main, Event, Story2])
    case RookieArena => Some([Main, Ark, Arena, RookieArena])
    case SpecialArena => Some([Main, Ark, Arena, SpecialArena])
  }

  lemma OneLink(a: PageId, b: PageId)
    requires Edge(a, b)
    ensures IsRoute([a, b], a, b)
  {
  }

  lemma TwoLinks(a: PageId, b: PageId, c: PageId)
    requires Edge(a, b) && Edge(b, c)
    ensures IsRoute([a, b, c], a, c)
  {
  }

  /** Each route `RouteFromMain` gives follows links. */
  lemma RouteFromMainFollowsLinks(p: PageId)
    requires RouteFromMain(p).Some?
    ensures IsRoute(RouteFromMain(p).value, Main, p)
  {
    match p
    case Unknown =>
    case SpecialInterception =>
    case Main =>
    case Reward => OneLink(Main, Reward);
    case Friend => OneLink(Main, Friend);
    case Daily => OneLink(Main, Daily);
    case Shop => OneLink(Main, Shop);
    case CashShop => OneLink(Main, CashShop);
    case Team => OneLink(Main, Team);
    case Inventory => OneLink(Main, Inventory);
    case Pass => OneLink(Main, Pass);
    case Ark => OneLink(Main, Ark);
    case Outpost => OneLink(Main, Outpost);
    case Mailbox => OneLink(Main, Mailbox);
    case Recruit => OneLink(Main, Recruit);
    case Event => OneLink(Main, Event);
    case Destroy => TwoLinks(Main, Reward, Destroy);
    case Conversation => TwoLinks(Main, Team, Conversation);
    case TribeTower => TwoLinks(Main, Ark, TribeTower);
    case Interception => TwoLinks(Main, Ark, Interception);
    case SimulationRoom => TwoLinks(Main, Ark, SimulationRoom);
    case Arena => TwoLinks(Main, Ark, Arena);
    case Ranking => TwoLinks(Main, Ark, Ranking);
    case Commission => TwoLinks(Main, Outpost, Commission);
    case Story1 => TwoLinks(Main, Event, Story1);
    case Story2 => TwoLinks(Main, Event, Story2);
    case RookieArena => TwoLinks(Main, Ark, Arena); TwoLinks(Ark, Arena, RookieArena);
    case SpecialArena => TwoLinks(Main, Ark, Arena); TwoLinks(Ark, Arena, SpecialArena);
  }

  /** Exactly the pages other than `page_unknown` and
      `page_special_interception` can be reached from `page_main`. */
  lemma ReachableFromMain(p: PageId)
    ensures (exists route :: IsRoute(route, Main, p)) <==> p != Unknown && p != SpecialInterception
  {
    match RouteFromMain(p)
    case Some(route) =>
      RouteFromMainFollowsLinks(p);
    case None =>
      forall route | IsRoute(route, Main, p)
        ensures false
      {
        NoWayIn(Main, route);
      }
  }
}
