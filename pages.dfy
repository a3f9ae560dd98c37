/** The page graph of the UI (module/ui/page.py): pages identified by name,
    each with a check button and a `links` dictionary from destination page
    to the button that leads there, built once by a fixed sequence of `link`
    calls at module level. */
module Pages {
  import opened Wrappers
  import opened Text

  /** The button and check assets the graph refers to, by the names of their
      constants. */

  datatype Button =
      MAIN_CHECK | REWARD_CHECK | DESTROY_CHECK | FRIEND_CHECK
    | DAILY_CHECK | SHOP_CHECK | CASH_SHOP_CHECK | TEAM_CHECK
    | INVENTORY_CHECK | PASS_CHECK | CONVERSATION_CHECK | ARK_CHECK
    | TRIBE_TOWER_CHECK | INTERCEPTION_CHECK | SPECIAL_INTERCEPTION_CHECK | SIMULATION_ROOM_CHECK
    | ARENA_CHECK | ROOKIE_ARENA_CHECK | SPECIAL_ARENA_CHECK | OUTPOST_CHECK
    | COMMISSION_CHECK | MAILBOX_CHECK | RECRUIT_CHECK | RANKING_CHECK
    | EVENT_CHECK | STORY_1_CHECK | STORY_2_CHECK | GOTO_MAIN
    | REWARD_GOTO_MAIN | MAIN_GOTO_REWARD | DESTROY_GOTO_REWARD | REWARD_GOTO_DESTROY
    | FRIEND_GOTO_MAIN | MAIN_GOTO_FRIEND | DAILY_GOTO_MAIN | MAIN_GOTO_DAILY
    | GOTO_BACK | MAIN_GOTO_SHOP | MAIN_GOTO_CASH_SHOP | TEAM_GOTO_MAIN
    | MAIN_GOTO_TEAM | MAIN_GOTO_INVENTORY | PASS_GOTO_MAIN | MAIN_GOTO_PASS
    | TEAM_GOTO_CONVERSATION | MAIN_GOTO_ARK | ARK_GOTO_TRIBE_TOWER | ARK_GOTO_INTERCEPTION
    | ARK_GOTO_SIMULATION_ROOM | ARK_GOTO_ARENA | ARENA_GOTO_ROOKIE_ARENA | ARENA_GOTO_SPECIAL_ARENA
    | MAIN_GOTO_OUTPOST | COMMISSION_GOTO_OUTPOST | OUTPOST_GOTO_COMMISSION | MAILBOX_GOTO_MAIN
    | MAIN_GOTO_MAILBOX | MAIN_GOTO_RECRUIT | ARK_GOTO_RANKING | MAIN_GOTO_EVENT
    | EVENT_GOTO_STORY_1 | EVENT_GOTO_STORY_2

  /** The name of a button's constant. */
  function ButtonName(b: Button): string
  {
    match b
    case MAIN_CHECK => "MAIN_CHECK"
    case REWARD_CHECK => "REWARD_CHECK"
    case DESTROY_CHECK => "DESTROY_CHECK"
    case FRIEND_CHECK => "FRIEND_CHECK"
    case DAILY_CHECK => "DAILY_CHECK"
    case SHOP_CHECK => "SHOP_CHECK"
    case CASH_SHOP_CHECK => "CASH_SHOP_CHECK"
    case TEAM_CHECK => "TEAM_CHECK"
    case INVENTORY_CHECK => "INVENTORY_CHECK"
    case PASS_CHECK => "PASS_CHECK"
    case CONVERSATION_CHECK => "CONVERSATION_CHECK"
    case ARK_CHECK => "ARK_CHECK"
    case TRIBE_TOWER_CHECK => "TRIBE_TOWER_CHECK"
    case INTERCEPTION_CHECK => "INTERCEPTION_CHECK"
    case SPECIAL_INTERCEPTION_CHECK => "SPECIAL_INTERCEPTION_CHECK"
    case SIMULATION_ROOM_CHECK => "SIMULATION_ROOM_CHECK"
    case ARENA_CHECK => "ARENA_CHECK"
    case ROOKIE_ARENA_CHECK => "ROOKIE_ARENA_CHECK"
    case SPECIAL_ARENA_CHECK => "SPECIAL_ARENA_CHECK"
    case OUTPOST_CHECK => "OUTPOST_CHECK"
    case COMMISSION_CHECK => "COMMISSION_CHECK"
    case MAILBOX_CHECK => "MAILBOX_CHECK"
    case RECRUIT_CHECK => "RECRUIT_CHECK"
    case RANKING_CHECK => "RANKING_CHECK"
    case EVENT_CHECK => "EVENT_CHECK"
    case STORY_1_CHECK => "STORY_1_CHECK"
    case STORY_2_CHECK => "STORY_2_CHECK"
    case GOTO_MAIN => "GOTO_MAIN"
    case REWARD_GOTO_MAIN => "REWARD_GOTO_MAIN"
    case MAIN_GOTO_REWARD => "MAIN_GOTO_REWARD"
    case DESTROY_GOTO_REWARD => "DESTROY_GOTO_REWARD"
    case REWARD_GOTO_DESTROY => "REWARD_GOTO_DESTROY"
    case FRIEND_GOTO_MAIN => "FRIEND_GOTO_MAIN"
    case MAIN_GOTO_FRIEND => "MAIN_GOTO_FRIEND"
    case DAILY_GOTO_MAIN => "DAILY_GOTO_MAIN"
    case MAIN_GOTO_DAILY => "MAIN_GOTO_DAILY"
    case GOTO_BACK => "GOTO_BACK"
    case MAIN_GOTO_SHOP => "MAIN_GOTO_SHOP"
    case MAIN_GOTO_CASH_SHOP => "MAIN_GOTO_CASH_SHOP"
    case TEAM_GOTO_MAIN => "TEAM_GOTO_MAIN"
    case MAIN_GOTO_TEAM => "MAIN_GOTO_TEAM"
    case MAIN_GOTO_INVENTORY => "MAIN_GOTO_INVENTORY"
    case PASS_GOTO_MAIN => "PASS_GOTO_MAIN"
    case MAIN_GOTO_PASS => "MAIN_GOTO_PASS"
    case TEAM_GOTO_CONVERSATION => "TEAM_GOTO_CONVERSATION"
    case MAIN_GOTO_ARK => "MAIN_GOTO_ARK"
    case ARK_GOTO_TRIBE_TOWER => "ARK_GOTO_TRIBE_TOWER"
    case ARK_GOTO_INTERCEPTION => "ARK_GOTO_INTERCEPTION"
    case ARK_GOTO_SIMULATION_ROOM => "ARK_GOTO_SIMULATION_ROOM"
    case ARK_GOTO_ARENA => "ARK_GOTO_ARENA"
    case ARENA_GOTO_ROOKIE_ARENA => "ARENA_GOTO_ROOKIE_ARENA"
    case ARENA_GOTO_SPECIAL_ARENA => "ARENA_GOTO_SPECIAL_ARENA"
    case MAIN_GOTO_OUTPOST => "MAIN_GOTO_OUTPOST"
    case COMMISSION_GOTO_OUTPOST => "COMMISSION_GOTO_OUTPOST"
    case OUTPOST_GOTO_COMMISSION => "OUTPOST_GOTO_COMMISSION"
    case MAILBOX_GOTO_MAIN => "MAILBOX_GOTO_MAIN"
    case MAIN_GOTO_MAILBOX => "MAIN_GOTO_MAILBOX"
    case MAIN_GOTO_RECRUIT => "MAIN_GOTO_RECRUIT"
    case ARK_GOTO_RANKING => "ARK_GOTO_RANKING"
    case MAIN_GOTO_EVENT => "MAIN_GOTO_EVENT"
    case EVENT_GOTO_STORY_1 => "EVENT_GOTO_STORY_1"
    case EVENT_GOTO_STORY_2 => "EVENT_GOTO_STORY_2"
  }


  // ---------------------------------------------------------------------
  // Page names

  /** The name a page takes from the source line that constructs it: the text
      before the first `=`, stripped. When the line holds no `=`, `find` gives
      -1 and the slice `text[:-1]` drops the last character instead. */
  function DeriveName(line: string): (name: string)
    ensures '=' !in name
    ensures |name| <= |line|
  {
    var k := Find(line, '=');
    var cut := if k >= 0 then k else if |line| > 0 then |line| - 1 else 0;
    var r := Strip(line[..cut]);
    assert forall i :: 0 <= i < |r| ==> r[i] == line[i + LeadingSpaces(line[..cut])];
    r
  }

  /** A trimmed left-hand side, then ` = `, then anything: the name is the
      left-hand side. */
  lemma NameOfAssignment(lhs: string, rhs: string)
    requires '=' !in lhs
    requires lhs != [] && !IsSpace(lhs[0]) && !IsSpace(lhs[|lhs| - 1])
    ensures DeriveName(lhs + " = " + rhs) == lhs
  {
    var line := lhs + " = " + rhs;
    FindAfterPrefix(lhs + " ", "= " + rhs, '=');
    assert line == (lhs + " ") + ("= " + rhs);
    assert Find(line, '=') == |lhs| + 1;
    assert line[..|lhs| + 1] == lhs + " ";
    StripTrailingBlank(lhs);
  }

  lemma {:induction false} FindAfterPrefix(a: string, b: string, c: char)
    requires c !in a
    ensures Find(a + b, c) == if c in b then |a| + Find(b, c) else -1
    decreases |a|
  {
    if a != [] {
      assert (a + b)[1..] == a[1..] + b;
      FindAfterPrefix(a[1..], b, c);
    } else {
      assert a + b == b;
    }
  }

  lemma StripTrailingBlank(s: string)
    requires s != [] && !IsSpace(s[0]) && !IsSpace(s[|s| - 1])
    ensures Strip(s + " ") == s
  {
    var t := s + " ";
    assert LeadingSpaces(t) == 0;
    assert t[..|t| - 1] == s;
    assert TrailingSpaces(s) == 0;
    assert TrailingSpaces(t) == 1;
  }

  // ---------------------------------------------------------------------
  // The graph as the module builds it

  /** The 28 constructing statements `page_x = Page(...)`, in the order they
      run; a page is created by exactly one of them. */
  datatype PageId =
      Main | Unknown | Reward | Destroy | Friend | Daily | Shop
    | CashShop | Team | Inventory | Pass | Conversation | Ark | TribeTower
    | Interception | SpecialInterception | SimulationRoom | Arena | RookieArena | SpecialArena | Outpost
    | Commission | Mailbox | Recruit | Ranking | Event | Story1 | Story2

  /** Every page, in registration order. */
  const AllPages: seq<PageId> := [
    Main, Unknown, Reward, Destroy, Friend, Daily, Shop,
    CashShop, Team, Inventory, Pass, Conversation, Ark, TribeTower,
    Interception, SpecialInterception, SimulationRoom, Arena, RookieArena, SpecialArena, Outpost,
    Commission, Mailbox, Recruit, Ranking, Event, Story1, Story2
  ]

  /** The module-level variable each statement assigns. */
  function Name(p: PageId): string
  {
    match p
    case Main => "page_main"
    case Unknown => "page_unknown"
    case Reward => "page_reward"
    case Destroy => "page_destroy"
    case Friend => "page_friend"
    case Daily => "page_daily"
    case Shop => "page_shop"
    case CashShop => "page_cash_shop"
    case Team => "page_team"
    case Inventory => "page_inventory"
    case Pass => "page_pass"
    case Conversation => "page_conversation"
    case Ark => "page_ark"
    case TribeTower => "page_tribe_tower"
    case Interception => "page_interception"
    case SpecialInterception => "page_special_interception"
    case SimulationRoom => "page_simulation_room"
    case Arena => "page_arena"
    case RookieArena => "page_rookie_arena"
    case SpecialArena => "page_special_arena"
    case Outpost => "page_outpost"
    case Commission => "page_commission"
    case Mailbox => "page_mailbox"
    case Recruit => "page_recruit"
    case Ranking => "page_ranking"
    case Event => "page_event"
    case Story1 => "page_story_1"
    case Story2 => "page_story_2"
  }

  /** The check button each page is constructed with. */
  function CheckButton(p: PageId): Option<Button>
  {
    match p
    case Main => Some(MAIN_CHECK)
    case Unknown => None
    case Reward => Some(REWARD_CHECK)
    case Destroy => Some(DESTROY_CHECK)
    case Friend => Some(FRIEND_CHECK)
    case Daily => Some(DAILY_CHECK)
    case Shop => Some(SHOP_CHECK)
    case CashShop => Some(CASH_SHOP_CHECK)
    case Team => Some(TEAM_CHECK)
    case Inventory => Some(INVENTORY_CHECK)
    case Pass => Some(PASS_CHECK)
    case Conversation => Some(CONVERSATION_CHECK)
    case Ark => Some(ARK_CHECK)
    case TribeTower => Some(TRIBE_TOWER_CHECK)
    case Interception => Some(INTERCEPTION_CHECK)
    case SpecialInterception => Some(SPECIAL_INTERCEPTION_CHECK)
    case SimulationRoom => Some(SIMULATION_ROOM_CHECK)
    case Arena => Some(ARENA_CHECK)
    case RookieArena => Some(ROOKIE_ARENA_CHECK)
    case SpecialArena => Some(SPECIAL_ARENA_CHECK)
    case Outpost => Some(OUTPOST_CHECK)
    case Commission => Some(COMMISSION_CHECK)
    case Mailbox => Some(MAILBOX_CHECK)
    case Recruit => Some(RECRUIT_CHECK)
    case Ranking => Some(RANKING_CHECK)
    case Event => Some(EVENT_CHECK)
    case Story1 => Some(STORY_1_CHECK)
    case Story2 => Some(STORY_2_CHECK)
  }

  /** The right-hand side of the constructing statement. */
  function ConstructorCall(p: PageId): string
  {
    "Page(" + (match CheckButton(p) case Some(b) => ButtonName(b) case None => "None") + ")"
  }

  /** The constructing statement of page `p`, as its source line reads. */
  function ConstructingLine(p: PageId): string
  {
    Name(p) + " = " + ConstructorCall(p)
  }

  /** A left-hand side `DeriveName` recovers: no `=`, not empty, no
      whitespace at either end. */
  predicate IsTrimmedName(n: string)
  {
    '=' !in n && n != [] && !IsSpace(n[0]) && !IsSpace(n[|n| - 1])
  }

  /** Constructing a page from its line gives it its variable name. */
  lemma LineGivesName(p: PageId)
    ensures DeriveName(ConstructingLine(p)) == Name(p)
  {
    NameIsTrimmed(p);
    NameOfAssignment(Name(p), ConstructorCall(p));
  }

  /** Every page's variable name is a trimmed name. */
  lemma NameIsTrimmed(p: PageId)
    ensures IsTrimmedName(Name(p))
  {
    if p == Main || p == Unknown || p == Reward || p == Destroy || p == Friend || p == Daily || p == Shop || p == CashShop || p == Team || p == Inventory {
      NamesTrimmed1(p);
    } else if p == Pass || p == Conversation || p == Ark || p == TribeTower || p == Interception || p == SpecialInterception || p == SimulationRoom || p == Arena || p == RookieArena {
      NamesTrimmed2(p);
    } else {
      NamesTrimmed3(p);
    }
  }

  lemma NamesTrimmed1(p: PageId)
    requires p == Main || p == Unknown || p == Reward || p == Destroy || p == Friend || p == Daily || p == Shop || p == CashShop || p == Team || p == Inventory
    ensures IsTrimmedName(Name(p))
  {
  }

  lemma NamesTrimmed2(p: PageId)
    requires p == Pass || p == Conversation || p == Ark || p == TribeTower || p == Interception || p == SpecialInterception || p == SimulationRoom || p == Arena || p == RookieArena
    ensures IsTrimmedName(Name(p))
  {
  }

  lemma NamesTrimmed3(p: PageId)
    requires p == SpecialArena || p == Outpost || p == Commission || p == Mailbox || p == Recruit || p == Ranking || p == Event || p == Story1 || p == Story2
    ensures IsTrimmedName(Name(p))
  {
  }

  /** The page a name belongs to, if any. */
  function PageNamed(s: string): (r: Option<PageId>)
  {
    if |s| == 8 then if s == "page_ark" then Some(Ark) else None
    else if |s| == 9 then if s == "page_main" then Some(Main) else if s == "page_shop" then Some(Shop) else if s == "page_team" then Some(Team) else if s == "page_pass" then Some(Pass) else None
    else if |s| == 10 then if s == "page_daily" then Some(Daily) else if s == "page_arena" then Some(Arena) else if s == "page_event" then Some(Event) else None
    else if |s| == 11 then if s == "page_reward" then Some(Reward) else if s == "page_friend" then Some(Friend) else None
    else if |s| == 12 then if s == "page_unknown" then Some(Unknown) else if s == "page_destroy" then Some(Destroy) else if s == "page_outpost" then Some(Outpost) else if s == "page_mailbox" then Some(Mailbox) else if s == "page_recruit" then Some(Recruit) else if s == "page_ranking" then Some(Ranking) else if s == "page_story_1" then Some(Story1) else if s == "page_story_2" then Some(Story2) else None
    else if |s| == 14 then if s == "page_cash_shop" then Some(CashShop) else if s == "page_inventory" then Some(Inventory) else None
    else if |s| == 15 then if s == "page_commission" then Some(Commission) else None
    else if |s| == 16 then if s == "page_tribe_tower" then Some(TribeTower) else None
    else if |s| == 17 then if s == "page_conversation" then Some(Conversation) else if s == "page_interception" then Some(Interception) else if s == "page_rookie_arena" then Some(RookieArena) else None
    else if |s| == 18 then if s == "page_special_arena" then Some(SpecialArena) else None
    else if |s| == 20 then if s == "page_simulation_room" then Some(SimulationRoom) else None
    else if |s| == 25 then if s == "page_special_interception" then Some(SpecialInterception) else None
    else None
  }

  /** No two of the statements assign the same name. */
  lemma NamesDistinct(p: PageId, q: PageId)
    ensures Name(p) == Name(q) ==> p == q
  {
    assert PageNamed(Name(p)) == Some(p) by {
      match p
      case Main =>
      case Unknown =>
      case Reward =>
      case Destroy =>
      case Friend =>
      case Daily =>
      case Shop =>
      case CashShop =>
      case Team =>
      case Inventory =>
      case Pass =>
      case Conversation =>
      case Ark =>
      case TribeTower =>
      case Interception =>
      case SpecialInterception =>
      case SimulationRoom =>
      case Arena =>
      case RookieArena =>
      case SpecialArena =>
      case Outpost =>
      case Commission =>
      case Mailbox =>
      case Recruit =>
      case Ranking =>
      case Event =>
      case Story1 =>
      case Story2 =>
    }
  }

  /** The `links` dictionary of each page once every `link` call has run:
      destination to button, in the order the calls are made. */
  function Links(p: PageId): map<PageId, Button>
  {
    match p
    case Main => map[Reward := MAIN_GOTO_REWARD, Friend := MAIN_GOTO_FRIEND, Daily := MAIN_GOTO_DAILY, Shop := MAIN_GOTO_SHOP, CashShop := MAIN_GOTO_CASH_SHOP, Team := MAIN_GOTO_TEAM, Inventory := MAIN_GOTO_INVENTORY, Pass := MAIN_GOTO_PASS, Ark := MAIN_GOTO_ARK, Outpost := MAIN_GOTO_OUTPOST, Mailbox := MAIN_GOTO_MAILBOX, Recruit := MAIN_GOTO_RECRUIT, Event := MAIN_GOTO_EVENT]
    case Unknown => map[Main := GOTO_MAIN]
    case Reward => map[Main := REWARD_GOTO_MAIN, Destroy := REWARD_GOTO_DESTROY]
    case Destroy => map[Reward := DESTROY_GOTO_REWARD]
    case Friend => map[Main := FRIEND_GOTO_MAIN]
    case Daily => map[Main := DAILY_GOTO_MAIN]
    case Shop => map[Main := GOTO_BACK]
    case CashShop => map[Main := GOTO_BACK]
    case Team => map[Main := TEAM_GOTO_MAIN, Conversation := TEAM_GOTO_CONVERSATION]
    case Inventory => map[Main := TEAM_GOTO_MAIN]
    case Pass => map[Main := PASS_GOTO_MAIN]
    case Conversation => map[Team := GOTO_BACK, Main := GOTO_MAIN]
    case Ark => map[Main := GOTO_BACK, TribeTower := ARK_GOTO_TRIBE_TOWER, Interception := ARK_GOTO_INTERCEPTION, SimulationRoom := ARK_GOTO_SIMULATION_ROOM, Arena := ARK_GOTO_ARENA, Ranking := ARK_GOTO_RANKING]
    case TribeTower => map[Ark := GOTO_BACK, Main := GOTO_MAIN]
    case Interception => map[Ark := GOTO_BACK, Main := GOTO_MAIN]
    case SpecialInterception => map[Interception := GOTO_BACK, Main := GOTO_MAIN]
    case SimulationRoom => map[Ark := GOTO_BACK, Main := GOTO_MAIN]
    case Arena => map[Ark := GOTO_BACK, Main := GOTO_MAIN, RookieArena := ARENA_GOTO_ROOKIE_ARENA, SpecialArena := ARENA_GOTO_SPECIAL_ARENA]
    case RookieArena => map[Arena := GOTO_BACK, Main := GOTO_MAIN]
    case SpecialArena => map[Arena := GOTO_BACK, Main := GOTO_MAIN]
    case Outpost => map[Main := GOTO_BACK, Commission := OUTPOST_GOTO_COMMISSION]
    case Commission => map[Outpost := COMMISSION_GOTO_OUTPOST]
    case Mailbox => map[Main := MAILBOX_GOTO_MAIN]
    case Recruit => map[Main := TEAM_GOTO_MAIN]
    case Ranking => map[Ark := GOTO_BACK, Main := GOTO_MAIN]
    case Event => map[Main := GOTO_BACK, Story1 := EVENT_GOTO_STORY_1, Story2 := EVENT_GOTO_STORY_2]
    case Story1 => map[Event := GOTO_BACK, Main := GOTO_MAIN]
    case Story2 => map[Event := GOTO_BACK, Main := GOTO_MAIN]
  }

  /** A screen of the game, created by statement `id`. Equality and hashing
      use only `name`; a dictionary keyed by pages is modelled keyed by `id`,
      which picks out the same entries because every statement assigns a
      different name (`SameNameSamePage`). */
  class Page {
    const id: PageId
    const name: string
    const checkButton: Option<Button>
    var links: map<PageId, Button>

    /** The page's name is the one its constructing line gives it, and its
        check button the one that line passes. */
    predicate Valid()
    {
      name == Name(id) && checkButton == CheckButton(id)
    }

    /** `Page(check_button)` as run by the constructing statement `statement`,
        which passes that statement's check button; the name is derived from
        the statement's line. */
    constructor (statement: PageId)
      ensures id == statement
      ensures Valid()
      ensures links == map[]
    {
      id := statement;
      name := DeriveName(ConstructingLine(statement));
      checkButton := CheckButton(statement);
      links := map[];
      LineGivesName(statement);
    }

    /** `__eq__`. */
    predicate Equals(other: Page)
    {
      name == other.name
    }

    /** `__hash__`: what a page is hashed by. */
    function Key(): string
    {
      name
    }

    /** `__str__`. */
    function ToString(): string
    {
      name
    }

    /** `link(button, destination)`: `links[destination] = button`, replacing
        any earlier button for that destination. */
    method Link(button: Button, destination: Page)
      modifies this
      ensures links == old(links)[destination.id := button]
    {
      links := links[destination.id := button];
    }
  }

  /** Two pages built from their lines are equal (and hash alike) exactly
      when they come from the same statement, so keying `links` by `id` is
      keying it by page. */
  lemma SameNameSamePage(p: Page, q: Page)
    requires p.Valid() && q.Valid()
    ensures p.Equals(q) <==> p.id == q.id
    ensures p.Equals(q) <==> p.Key() == q.Key()
  {
    NamesDistinct(p.id, q.id);
  }

  /** Line 29: `page_main`. */
  method DeclareMain() returns (pageMain: Page)
    ensures fresh(pageMain) && pageMain.Valid() && pageMain.id == Main
    ensures pageMain.links == map[]
  {
    pageMain := new Page(Main);
  }

  /** Lines 32-33: `page_unknown` and its links. */
  method DeclareUnknown(pageMain: Page) returns (pageUnknown: Page)
    requires pageMain.id == Main
    ensures fresh(pageUnknown) && pageUnknown.Valid() && pageUnknown.id == Unknown
    ensures pageUnknown.links == map[Main := GOTO_MAIN]
  {
    pageUnknown := new Page(Unknown);
    pageUnknown.Link(GOTO_MAIN, pageMain);
  }

  /** Lines 36-38: `page_reward` and its links. */
  method DeclareReward(pageMain: Page) returns (pageReward: Page)
    requires pageMain.id == Main
    modifies pageMain
    ensures fresh(pageReward) && pageReward.Valid() && pageReward.id == Reward
    ensures pageReward.links == map[Main := REWARD_GOTO_MAIN]
    ensures pageMain.links == old(pageMain.links)[Reward := MAIN_GOTO_REWARD]
  {
    pageReward := new Page(Reward);
    pageReward.Link(REWARD_GOTO_MAIN, pageMain);
    pageMain.Link(MAIN_GOTO_REWARD, pageReward);
  }

  /** Lines 41-43: `page_destroy` and its links. */
  method DeclareDestroy(pageReward: Page) returns (pageDestroy: Page)
    requires pageReward.id == Reward
    modifies pageReward
    ensures fresh(pageDestroy) && pageDestroy.Valid() && pageDestroy.id == Destroy
    ensures pageDestroy.links == map[Reward := DESTROY_GOTO_REWARD]
    ensures pageReward.links == old(pageReward.links)[Destroy := REWARD_GOTO_DESTROY]
  {
    pageDestroy := new Page(Destroy);
    pageDestroy.Link(DESTROY_GOTO_REWARD, pageReward);
    pageReward.Link(REWARD_GOTO_DESTROY, pageDestroy);
  }

  /** Lines 46-48: `page_friend` and its links. */
  method DeclareFriend(pageMain: Page) returns (pageFriend: Page)
    requires pageMain.id == Main
    modifies pageMain
    ensures fresh(pageFriend) && pageFriend.Valid() && pageFriend.id == Friend
    ensures pageFriend.links == map[Main := FRIEND_GOTO_MAIN]
    ensures pageMain.links == old(pageMain.links)[Friend := MAIN_GOTO_FRIEND]
  {
    pageFriend := new Page(Friend);
    pageFriend.Link(FRIEND_GOTO_MAIN, pageMain);
    pageMain.Link(MAIN_GOTO_FRIEND, pageFriend);
  }

  /** Lines 51-53: `page_daily` and its links. */
  method DeclareDaily(pageMain: Page) returns (pageDaily: Page)
    requires pageMain.id == Main
    modifies pageMain
    ensures fresh(pageDaily) && pageDaily.Valid() && pageDaily.id == Daily
    ensures pageDaily.links == map[Main := DAILY_GOTO_MAIN]
    ensures pageMain.links == old(pageMain.links)[Daily := MAIN_GOTO_DAILY]
  {
    pageDaily := new Page(Daily);
    pageDaily.Link(DAILY_GOTO_MAIN, pageMain);
    pageMain.Link(MAIN_GOTO_DAILY, pageDaily);
  }

  /** Lines 56-59: `page_shop` and its links. */
  method DeclareShop(pageMain: Page) returns (pageShop: Page)
    requires pageMain.id == Main
    modifies pageMain
    ensures fresh(pageShop) && pageShop.Valid() && pageShop.id == Shop
    ensures pageShop.links == map[Main := GOTO_BACK]
    ensures pageMain.links == old(pageMain.links)[Shop := MAIN_GOTO_SHOP]
  {
    pageShop := new Page(Shop);
    pageShop.Link(GOTO_BACK, pageMain);
    pageMain.Link(MAIN_GOTO_SHOP, pageShop);
  }

  /** Lines 62-65: `page_cash_shop` and its links. */
  method DeclareCashShop(pageMain: Page) returns (pageCashShop: Page)
    requires pageMain.id == Main
    modifies pageMain
    ensures fresh(pageCashShop) && pageCashShop.Valid() && pageCashShop.id == CashShop
    ensures pageCashShop.links == map[Main := GOTO_BACK]
    ensures pageMain.links == old(pageMain.links)[CashShop := MAIN_GOTO_CASH_SHOP]
  {
    pageCashShop := new Page(CashShop);
    pageCashShop.Link(GOTO_BACK, pageMain);
    pageMain.Link(MAIN_GOTO_CASH_SHOP, pageCashShop);
  }

  /** Lines 68-70: `page_team` and its links. */
  method DeclareTeam(pageMain: Page) returns (pageTeam: Page)
    requires pageMain.id == Main
    modifies pageMain
    ensures fresh(pageTeam) && pageTeam.Valid() && pageTeam.id == Team
    ensures pageTeam.links == map[Main := TEAM_GOTO_MAIN]
    ensures pageMain.links == old(pageMain.links)[Team := MAIN_GOTO_TEAM]
  {
    pageTeam := new Page(Team);
    pageTeam.Link(TEAM_GOTO_MAIN, pageMain);
    pageMain.Link(MAIN_GOTO_TEAM, pageTeam);
  }

  /** Lines 73-75: `page_inventory` and its links. */
  method DeclareInventory(pageMain: Page) returns (pageInventory: Page)
    requires pageMain.id == Main
    modifies pageMain
    ensures fresh(pageInventory) && pageInventory.Valid() && pageInventory.id == Inventory
    ensures pageInventory.links == map[Main := TEAM_GOTO_MAIN]
    ensures pageMain.links == old(pageMain.links)[Inventory := MAIN_GOTO_INVENTORY]
  {
    pageInventory := new Page(Inventory);
    pageInventory.Link(TEAM_GOTO_MAIN, pageMain);
    pageMain.Link(MAIN_GOTO_INVENTORY, pageInventory);
  }

  /** Lines 78-80: `page_pass` and its links. */
  method DeclarePass(pageMain: Page) returns (pagePass: Page)
    requires pageMain.id == Main
    modifies pageMain
    ensures fresh(pagePass) && pagePass.Valid() && pagePass.id == Pass
    ensures pagePass.links == map[Main := PASS_GOTO_MAIN]
    ensures pageMain.links == old(pageMain.links)[Pass := MAIN_GOTO_PASS]
  {
    pagePass := new Page(Pass);
    pagePass.Link(PASS_GOTO_MAIN, pageMain);
    pageMain.Link(MAIN_GOTO_PASS, pagePass);
  }

  /** Lines 83-86: `page_conversation` and its links. */
  method DeclareConversation(pageTeam: Page, pageMain: Page) returns (pageConversation: Page)
    requires pageTeam.id == Team
    requires pageMain.id == Main
    modifies pageTeam
    ensures fresh(pageConversation) && pageConversation.Valid() && pageConversation.id == Conversation
    ensures pageConversation.links == map[Team := GOTO_BACK, Main := GOTO_MAIN]
    ensures pageTeam.links == old(pageTeam.links)[Conversation := TEAM_GOTO_CONVERSATION]
  {
    pageConversation := new Page(Conversation);
    pageConversation.Link(GOTO_BACK, pageTeam);
    pageConversation.Link(GOTO_MAIN, pageMain);
    pageTeam.Link(TEAM_GOTO_CONVERSATION, pageConversation);
  }

  /** Lines 89-92: `page_ark` and its links. */
  method DeclareArk(pageMain: Page) returns (pageArk: Page)
    requires pageMain.id == Main
    modifies pageMain
    ensures fresh(pageArk) && pageArk.Valid() && pageArk.id == Ark
    ensures pageArk.links == map[Main := GOTO_BACK]
    ensures pageMain.links == old(pageMain.links)[Ark := MAIN_GOTO_ARK]
  {
    pageArk := new Page(Ark);
    pageArk.Link(GOTO_BACK, pageMain);
    pageMain.Link(MAIN_GOTO_ARK, pageArk);
  }

  /** Lines 95-98: `page_tribe_tower` and its links. */
  method DeclareTribeTower(pageArk: Page, pageMain: Page) returns (pageTribeTower: Page)
    requires pageArk.id == Ark
    requires pageMain.id == Main
    modifies pageArk
    ensures fresh(pageTribeTower) && pageTribeTower.Valid() && pageTribeTower.id == TribeTower
    ensures pageTribeTower.links == map[Ark := GOTO_BACK, Main := GOTO_MAIN]
    ensures pageArk.links == old(pageArk.links)[TribeTower := ARK_GOTO_TRIBE_TOWER]
  {
    pageTribeTower := new Page(TribeTower);
    pageTribeTower.Link(GOTO_BACK, pageArk);
    pageTribeTower.Link(GOTO_MAIN, pageMain);
    pageArk.Link(ARK_GOTO_TRIBE_TOWER, pageTribeTower);
  }

  /** Lines 101-104: `page_interception` and its links. */
  method DeclareInterception(pageArk: Page, pageMain: Page) returns (pageInterception: Page)
    requires pageArk.id == Ark
    requires pageMain.id == Main
    modifies pageArk
    ensures fresh(pageInterception) && pageInterception.Valid() && pageInterception.id == Interception
    ensures pageInterception.links == map[Ark := GOTO_BACK, Main := GOTO_MAIN]
    ensures pageArk.links == old(pageArk.links)[Interception := ARK_GOTO_INTERCEPTION]
  {
    pageInterception := new Page(Interception);
    pageInterception.Link(GOTO_BACK, pageArk);
    pageInterception.Link(GOTO_MAIN, pageMain);
    pageArk.Link(ARK_GOTO_INTERCEPTION, pageInterception);
  }

  /** Lines 107-109: `page_special_interception` and its links. */
  method DeclareSpecialInterception(pageInterception: Page, pageMain: Page) returns (pageSpecialInterception: Page)
    requires pageInterception.id == Interception
    requires pageMain.id == Main
    ensures fresh(pageSpecialInterception) && pageSpecialInterception.Valid() && pageSpecialInterception.id == SpecialInterception
    ensures pageSpecialInterception.links == map[Interception := GOTO_BACK, Main := GOTO_MAIN]
  {
    pageSpecialInterception := new Page(SpecialInterception);
    pageSpecialInterception.Link(GOTO_BACK, pageInterception);
    pageSpecialInterception.Link(GOTO_MAIN, pageMain);
  }

  /** Lines 113-116: `page_simulation_room` and its links. */
  method DeclareSimulationRoom(pageArk: Page, pageMain: Page) returns (pageSimulationRoom: Page)
    requires pageArk.id == Ark
    requires pageMain.id == Main
    modifies pageArk
    ensures fresh(pageSimulationRoom) && pageSimulationRoom.Valid() && pageSimulationRoom.id == SimulationRoom
    ensures pageSimulationRoom.links == map[Ark := GOTO_BACK, Main := GOTO_MAIN]
    ensures pageArk.links == old(pageArk.links)[SimulationRoom := ARK_GOTO_SIMULATION_ROOM]
  {
    pageSimulationRoom := new Page(SimulationRoom);
    pageSimulationRoom.Link(GOTO_BACK, pageArk);
    pageSimulationRoom.Link(GOTO_MAIN, pageMain);
    pageArk.Link(ARK_GOTO_SIMULATION_ROOM, pageSimulationRoom);
  }

  /** Lines 119-122: `page_arena` and its links. */
  method DeclareArena(pageArk: Page, pageMain: Page) returns (pageArena: Page)
    requires pageArk.id == Ark
    requires pageMain.id == Main
    modifies pageArk
    ensures fresh(pageArena) && pageArena.Valid() && pageArena.id == Arena
    ensures pageArena.links == map[Ark := GOTO_BACK, Main := GOTO_MAIN]
    ensures pageArk.links == old(pageArk.links)[Arena := ARK_GOTO_ARENA]
  {
    pageArena := new Page(Arena);
    pageArena.Link(GOTO_BACK, pageArk);
    pageArena.Link(GOTO_MAIN, pageMain);
    pageArk.Link(ARK_GOTO_ARENA, pageArena);
  }

  /** Lines 125-128: `page_rookie_arena` and its links. */
  method DeclareRookieArena(pageArena: Page, pageMain: Page) returns (pageRookieArena: Page)
    requires pageArena.id == Arena
    requires pageMain.id == Main
    modifies pageArena
    ensures fresh(pageRookieArena) && pageRookieArena.Valid() && pageRookieArena.id == RookieArena
    ensures pageRookieArena.links == map[Arena := GOTO_BACK, Main := GOTO_MAIN]
    ensures pageArena.links == old(pageArena.links)[RookieArena := ARENA_GOTO_ROOKIE_ARENA]
  {
    pageRookieArena := new Page(RookieArena);
    pageRookieArena.Link(GOTO_BACK, pageArena);
    pageRookieArena.Link(GOTO_MAIN, pageMain);
    pageArena.Link(ARENA_GOTO_ROOKIE_ARENA, pageRookieArena);
  }

  /** Lines 131-134: `page_special_arena` and its links. */
  method DeclareSpecialArena(pageArena: Page, pageMain: Page) returns (pageSpecialArena: Page)
    requires pageArena.id == Arena
    requires pageMain.id == Main
    modifies pageArena
    ensures fresh(pageSpecialArena) && pageSpecialArena.Valid() && pageSpecialArena.id == SpecialArena
    ensures pageSpecialArena.links == map[Arena := GOTO_BACK, Main := GOTO_MAIN]
    ensures pageArena.links == old(pageArena.links)[SpecialArena := ARENA_GOTO_SPECIAL_ARENA]
  {
    pageSpecialArena := new Page(SpecialArena);
    pageSpecialArena.Link(GOTO_BACK, pageArena);
    pageSpecialArena.Link(GOTO_MAIN, pageMain);
    pageArena.Link(ARENA_GOTO_SPECIAL_ARENA, pageSpecialArena);
  }

  /** Lines 137-140: `page_outpost` and its links. */
  method DeclareOutpost(pageMain: Page) returns (pageOutpost: Page)
    requires pageMain.id == Main
    modifies pageMain
    ensures fresh(pageOutpost) && pageOutpost.Valid() && pageOutpost.id == Outpost
    ensures pageOutpost.links == map[Main := GOTO_BACK]
    ensures pageMain.links == old(pageMain.links)[Outpost := MAIN_GOTO_OUTPOST]
  {
    pageOutpost := new Page(Outpost);
    pageOutpost.Link(GOTO_BACK, pageMain);
    pageMain.Link(MAIN_GOTO_OUTPOST, pageOutpost);
  }

  /** Lines 143-146: `page_commission` and its links. */
  method DeclareCommission(pageOutpost: Page) returns (pageCommission: Page)
    requires pageOutpost.id == Outpost
    modifies pageOutpost
    ensures fresh(pageCommission) && pageCommission.Valid() && pageCommission.id == Commission
    ensures pageCommission.links == map[Outpost := COMMISSION_GOTO_OUTPOST]
    ensures pageOutpost.links == old(pageOutpost.links)[Commission := OUTPOST_GOTO_COMMISSION]
  {
    pageCommission := new Page(Commission);
    pageCommission.Link(COMMISSION_GOTO_OUTPOST, pageOutpost);
    pageOutpost.Link(OUTPOST_GOTO_COMMISSION, pageCommission);
  }

  /** Lines 149-151: `page_mailbox` and its links. */
  method DeclareMailbox(pageMain: Page) returns (pageMailbox: Page)
    requires pageMain.id == Main
    modifies pageMain
    ensures fresh(pageMailbox) && pageMailbox.Valid() && pageMailbox.id == Mailbox
    ensures pageMailbox.links == map[Main := MAILBOX_GOTO_MAIN]
    ensures pageMain.links == old(pageMain.links)[Mailbox := MAIN_GOTO_MAILBOX]
  {
    pageMailbox := new Page(Mailbox);
    pageMailbox.Link(MAILBOX_GOTO_MAIN, pageMain);
    pageMain.Link(MAIN_GOTO_MAILBOX, pageMailbox);
  }

  /** Lines 154-156: `page_recruit` and its links. */
  method DeclareRecruit(pageMain: Page) returns (pageRecruit: Page)
    requires pageMain.id == Main
    modifies pageMain
    ensures fresh(pageRecruit) && pageRecruit.Valid() && pageRecruit.id == Recruit
    ensures pageRecruit.links == map[Main := TEAM_GOTO_MAIN]
    ensures pageMain.links == old(pageMain.links)[Recruit := MAIN_GOTO_RECRUIT]
  {
    pageRecruit := new Page(Recruit);
    pageRecruit.Link(TEAM_GOTO_MAIN, pageMain);
    pageMain.Link(MAIN_GOTO_RECRUIT, pageRecruit);
  }

  /** Lines 159-162: `page_ranking` and its links. */
  method DeclareRanking(pageArk: Page, pageMain: Page) returns (pageRanking: Page)
    requires pageArk.id == Ark
    requires pageMain.id == Main
    modifies pageArk
    ensures fresh(pageRanking) && pageRanking.Valid() && pageRanking.id == Ranking
    ensures pageRanking.links == map[Ark := GOTO_BACK, Main := GOTO_MAIN]
    ensures pageArk.links == old(pageArk.links)[Ranking := ARK_GOTO_RANKING]
  {
    pageRanking := new Page(Ranking);
    pageRanking.Link(GOTO_BACK, pageArk);
    pageRanking.Link(GOTO_MAIN, pageMain);
    pageArk.Link(ARK_GOTO_RANKING, pageRanking);
  }

  /** Lines 167-169: `page_event` and its links. */
  method DeclareEvent(pageMain: Page) returns (pageEvent: Page)
    requires pageMain.id == Main
    modifies pageMain
    ensures fresh(pageEvent) && pageEvent.Valid() && pageEvent.id == Event
    ensures pageEvent.links == map[Main := GOTO_BACK]
    ensures pageMain.links == old(pageMain.links)[Event := MAIN_GOTO_EVENT]
  {
    pageEvent := new Page(Event);
    pageEvent.Link(GOTO_BACK, pageMain);
    pageMain.Link(MAIN_GOTO_EVENT, pageEvent);
  }

  /** Lines 171-174: `page_story_1` and its links. */
  method DeclareStory1(pageEvent: Page, pageMain: Page) returns (pageStory1: Page)
    requires pageEvent.id == Event
    requires pageMain.id == Main
    modifies pageEvent
    ensures fresh(pageStory1) && pageStory1.Valid() && pageStory1.id == Story1
    ensures pageStory1.links == map[Event := GOTO_BACK, Main := GOTO_MAIN]
    ensures pageEvent.links == old(pageEvent.links)[Story1 := EVENT_GOTO_STORY_1]
  {
    pageStory1 := new Page(Story1);
    pageStory1.Link(GOTO_BACK, pageEvent);
    pageStory1.Link(GOTO_MAIN, pageMain);
    pageEvent.Link(EVENT_GOTO_STORY_1, pageStory1);
  }

  /** Lines 176-179: `page_story_2` and its links. */
  method DeclareStory2(pageEvent: Page, pageMain: Page) returns (pageStory2: Page)
    requires pageEvent.id == Event
    requires pageMain.id == Main
    modifies pageEvent
    ensures fresh(pageStory2) && pageStory2.Valid() && pageStory2.id == Story2
    ensures pageStory2.links == map[Event := GOTO_BACK, Main := GOTO_MAIN]
    ensures pageEvent.links == old(pageEvent.links)[Story2 := EVENT_GOTO_STORY_2]
  {
    pageStory2 := new Page(Story2);
    pageStory2.Link(GOTO_BACK, pageEvent);
    pageStory2.Link(GOTO_MAIN, pageMain);
    pageEvent.Link(EVENT_GOTO_STORY_2, pageStory2);
  }

  /** The module-level statements from `page_story_2` to the end. */
  method RunFromStory2(pageEvent: Page, pageMain: Page)
    returns (pageStory2: Page)
    requires pageEvent.id == Event
    requires pageMain.id == Main
    modifies pageEvent
    ensures fresh(pageStory2) && pageStory2.Valid() && pageStory2.id == Story2 && pageStory2.links == Links(Story2)
    ensures pageEvent.links == old(pageEvent.links)[Story2 := EVENT_GOTO_STORY_2]
  {
    pageStory2 := DeclareStory2(pageEvent, pageMain);
  }

  /** The module-level statements from `page_story_1` to the end. */
  method RunFromStory1(pageEvent: Page, pageMain: Page)
    returns (pageStory1: Page, pageStory2: Page)
    requires pageEvent.id == Event
    requires pageMain.id == Main
    modifies pageEvent
    ensures fresh(pageStory1) && pageStory1.Valid() && pageStory1.id == Story1 && pageStory1.links == Links(Story1)
    ensures fresh(pageStory2) && pageStory2.Valid() && pageStory2.id == Story2 && pageStory2.links == Links(Story2)
    ensures pageEvent.links == old(pageEvent.links)[Story1 := EVENT_GOTO_STORY_1][Story2 := EVENT_GOTO_STORY_2]
  {
    pageStory1 := DeclareStory1(pageEvent, pageMain);
    pageStory2 := RunFromStory2(pageEvent, pageMain);
  }

  /** The module-level statements from `page_event` to the end. */
  method RunFromEvent(pageMain: Page)
    returns (pageEvent: Page, pageStory1: Page, pageStory2: Page)
    requires pageMain.id == Main
    modifies pageMain
    ensures fresh(pageEvent) && pageEvent.Valid() && pageEvent.id == Event && pageEvent.links == Links(Event)
    ensures fresh(pageStory1) && pageStory1.Valid() && pageStory1.id == Story1 && pageStory1.links == Links(Story1)
    ensures fresh(pageStory2) && pageStory2.Valid() && pageStory2.id == Story2 && pageStory2.links == Links(Story2)
    ensures pageMain.links == old(pageMain.links)[Event := MAIN_GOTO_EVENT]
  {
    pageEvent := DeclareEvent(pageMain);
    pageStory1, pageStory2 := RunFromStory1(pageEvent, pageMain);
  }

  /** The module-level statements from `page_ranking` to the end. */
  method RunFromRanking(pageArk: Page, pageMain: Page)
    returns (pageRanking: Page, pageEvent: Page, pageStory1: Page, pageStory2: Page)
    requires pageArk.id == Ark
    requires pageMain.id == Main
    modifies pageArk, pageMain
    ensures fresh(pageRanking) && pageRanking.Valid() && pageRanking.id == Ranking && pageRanking.links == Links(Ranking)
    ensures fresh(pageEvent) && pageEvent.Valid() && pageEvent.id == Event && pageEvent.links == Links(Event)
    ensures fresh(pageStory1) && pageStory1.Valid() && pageStory1.id == Story1 && pageStory1.links == Links(Story1)
    ensures fresh(pageStory2) && pageStory2.Valid() && pageStory2.id == Story2 && pageStory2.links == Links(Story2)
    ensures pageArk.links == old(pageArk.links)[Ranking := ARK_GOTO_RANKING]
    ensures pageMain.links == old(pageMain.links)[Event := MAIN_GOTO_EVENT]
  {
    pageRanking := DeclareRanking(pageArk, pageMain);
    pageEvent, pageStory1, pageStory2 := RunFromEvent(pageMain);
  }

  /** The module-level statements from `page_recruit` to the end. */
  method RunFromRecruit(pageMain: Page, pageArk: Page)
    returns (pageRecruit: Page, pageRanking: Page, pageEvent: Page, pageStory1: Page, pageStory2: Page)
    requires pageMain.id == Main
    requires pageArk.id == Ark
    modifies pageMain, pageArk
    ensures fresh(pageRecruit) && pageRecruit.Valid() && pageRecruit.id == Recruit && pageRecruit.links == Links(Recruit)
    ensures fresh(pageRanking) && pageRanking.Valid() && pageRanking.id == Ranking && pageRanking.links == Links(Ranking)
    ensures fresh(pageEvent) && pageEvent.Valid() && pageEvent.id == Event && pageEvent.links == Links(Event)
    ensures fresh(pageStory1) && pageStory1.Valid() && pageStory1.id == Story1 && pageStory1.links == Links(Story1)
    ensures fresh(pageStory2) && pageStory2.Valid() && pageStory2.id == Story2 && pageStory2.links == Links(Story2)
    ensures pageMain.links == old(pageMain.links)[Recruit := MAIN_GOTO_RECRUIT][Event := MAIN_GOTO_EVENT]
    ensures pageArk.links == old(pageArk.links)[Ranking := ARK_GOTO_RANKING]
  {
    pageRecruit := DeclareRecruit(pageMain);
    pageRanking, pageEvent, pageStory1, pageStory2 := RunFromRanking(pageArk, pageMain);
  }

  /** The module-level statements from `page_mailbox` to the end. */
  method RunFromMailbox(pageMain: Page, pageArk: Page)
    returns (pageMailbox: Page, pageRecruit: Page, pageRanking: Page, pageEvent: Page, pageStory1: Page, pageStory2: Page)
    requires pageMain.id == Main
    requires pageArk.id == Ark
    modifies pageMain, pageArk
    ensures fresh(pageMailbox) && pageMailbox.Valid() && pageMailbox.id == Mailbox && pageMailbox.links == Links(Mailbox)
    ensures fresh(pageRecruit) && pageRecruit.Valid() && pageRecruit.id == Recruit && pageRecruit.links == Links(Recruit)
    ensures fresh(pageRanking) && pageRanking.Valid() && pageRanking.id == Ranking && pageRanking.links == Links(Ranking)
    ensures fresh(pageEvent) && pageEvent.Valid() && pageEvent.id == Event && pageEvent.links == Links(Event)
    ensures fresh(pageStory1) && pageStory1.Valid() && pageStory1.id == Story1 && pageStory1.links == Links(Story1)
    ensures fresh(pageStory2) && pageStory2.Valid() && pageStory2.id == Story2 && pageStory2.links == Links(Story2)
    ensures pageMain.links == old(pageMain.links)[Mailbox := MAIN_GOTO_MAILBOX][Recruit := MAIN_GOTO_RECRUIT][Event := MAIN_GOTO_EVENT]
    ensures pageArk.links == old(pageArk.links)[Ranking := ARK_GOTO_RANKING]
  {
    pageMailbox := DeclareMailbox(pageMain);
    pageRecruit, pageRanking, pageEvent, pageStory1, pageStory2 := RunFromRecruit(pageMain, pageArk);
  }

  /** The module-level statements from `page_commission` to the end. */
  method RunFromCommission(pageOutpost: Page, pageMain: Page, pageArk: Page)
    returns (pageCommission: Page, pageMailbox: Page, pageRecruit: Page, pageRanking: Page, pageEvent: Page, pageStory1: Page, pageStory2: Page)
    requires pageOutpost.id == Outpost
    requires pageMain.id == Main
    requires pageArk.id == Ark
    modifies pageOutpost, pageMain, pageArk
    ensures fresh(pageCommission) && pageCommission.Valid() && pageCommission.id == Commission && pageCommission.links == Links(Commission)
    ensures fresh(pageMailbox) && pageMailbox.Valid() && pageMailbox.id == Mailbox && pageMailbox.links == Links(Mailbox)
    ensures fresh(pageRecruit) && pageRecruit.Valid() && pageRecruit.id == Recruit && pageRecruit.links == Links(Recruit)
    ensures fresh(pageRanking) && pageRanking.Valid() && pageRanking.id == Ranking && pageRanking.links == Links(Ranking)
    ensures fresh(pageEvent) && pageEvent.Valid() && pageEvent.id == Event && pageEvent.links == Links(Event)
    ensures fresh(pageStory1) && pageStory1.Valid() && pageStory1.id == Story1 && pageStory1.links == Links(Story1)
    ensures fresh(pageStory2) && pageStory2.Valid() && pageStory2.id == Story2 && pageStory2.links == Links(Story2)
    ensures pageOutpost.links == old(pageOutpost.links)[Commission := OUTPOST_GOTO_COMMISSION]
    ensures pageMain.links == old(pageMain.links)[Mailbox := MAIN_GOTO_MAILBOX][Recruit := MAIN_GOTO_RECRUIT][Event := MAIN_GOTO_EVENT]
    ensures pageArk.links == old(pageArk.links)[Ranking := ARK_GOTO_RANKING]
  {
    pageCommission := DeclareCommission(pageOutpost);
    pageMailbox, pageRecruit, pageRanking, pageEvent, pageStory1, pageStory2 := RunFromMailbox(pageMain, pageArk);
  }

  /** The module-level statements from `page_outpost` to the end. */
  method RunFromOutpost(pageMain: Page, pageArk: Page)
    returns (pageOutpost: Page, pageCommission: Page, pageMailbox: Page, pageRecruit: Page, pageRanking: Page, pageEvent: Page, pageStory1: Page, pageStory2: Page)
    requires pageMain.id == Main
    requires pageArk.id == Ark
    modifies pageMain, pageArk
    ensures fresh(pageOutpost) && pageOutpost.Valid() && pageOutpost.id == Outpost && pageOutpost.links == Links(Outpost)
    ensures fresh(pageCommission) && pageCommission.Valid() && pageCommission.id == Commission && pageCommission.links == Links(Commission)
    ensures fresh(pageMailbox) && pageMailbox.Valid() && pageMailbox.id == Mailbox && pageMailbox.links == Links(Mailbox)
    ensures fresh(pageRecruit) && pageRecruit.Valid() && pageRecruit.id == Recruit && pageRecruit.links == Links(Recruit)
    ensures fresh(pageRanking) && pageRanking.Valid() && pageRanking.id == Ranking && pageRanking.links == Links(Ranking)
    ensures fresh(pageEvent) && pageEvent.Valid() && pageEvent.id == Event && pageEvent.links == Links(Event)
    ensures fresh(pageStory1) && pageStory1.Valid() && pageStory1.id == Story1 && pageStory1.links == Links(Story1)
    ensures fresh(pageStory2) && pageStory2.Valid() && pageStory2.id == Story2 && pageStory2.links == Links(Story2)
    ensures pageMain.links == old(pageMain.links)[Outpost := MAIN_GOTO_OUTPOST][Mailbox := MAIN_GOTO_MAILBOX][Recruit := MAIN_GOTO_RECRUIT][Event := MAIN_GOTO_EVENT]
    ensures pageArk.links == old(pageArk.links)[Ranking := ARK_GOTO_RANKING]
  {
    pageOutpost := DeclareOutpost(pageMain);
    pageCommission, pageMailbox, pageRecruit, pageRanking, pageEvent, pageStory1, pageStory2 := RunFromCommission(pageOutpost, pageMain, pageArk);
  }

  /** The module-level statements from `page_special_arena` to the end. */
  method RunFromSpecialArena(pageArena: Page, pageMain: Page, pageArk: Page)
    returns (pageSpecialArena: Page, pageOutpost: Page, pageCommission: Page, pageMailbox: Page, pageRecruit: Page, pageRanking: Page, pageEvent: Page, pageStory1: Page, pageStory2: Page)
    requires pageArena.id == Arena
    requires pageMain.id == Main
    requires pageArk.id == Ark
    modifies pageArena, pageMain, pageArk
    ensures fresh(pageSpecialArena) && pageSpecialArena.Valid() && pageSpecialArena.id == SpecialArena && pageSpecialArena.links == Links(SpecialArena)
    ensures fresh(pageOutpost) && pageOutpost.Valid() && pageOutpost.id == Outpost && pageOutpost.links == Links(Outpost)
    ensures fresh(pageCommission) && pageCommission.Valid() && pageCommission.id == Commission && pageCommission.links == Links(Commission)
    ensures fresh(pageMailbox) && pageMailbox.Valid() && pageMailbox.id == Mailbox && pageMailbox.links == Links(Mailbox)
    ensures fresh(pageRecruit) && pageRecruit.Valid() && pageRecruit.id == Recruit && pageRecruit.links == Links(Recruit)
    ensures fresh(pageRanking) && pageRanking.Valid() && pageRanking.id == Ranking && pageRanking.links == Links(Ranking)
    ensures fresh(pageEvent) && pageEvent.Valid() && pageEvent.id == Event && pageEvent.links == Links(Event)
    ensures fresh(pageStory1) && pageStory1.Valid() && pageStory1.id == Story1 && pageStory1.links == Links(Story1)
    ensures fresh(pageStory2) && pageStory2.Valid() && pageStory2.id == Story2 && pageStory2.links == Links(Story2)
    ensures pageArena.links == old(pageArena.links)[SpecialArena := ARENA_GOTO_SPECIAL_ARENA]
    ensures pageMain.links == old(pageMain.links)[Outpost := MAIN_GOTO_OUTPOST][Mailbox := MAIN_GOTO_MAILBOX][Recruit := MAIN_GOTO_RECRUIT][Event := MAIN_GOTO_EVENT]
    ensures pageArk.links == old(pageArk.links)[Ranking := ARK_GOTO_RANKING]
  {
    pageSpecialArena := DeclareSpecialArena(pageArena, pageMain);
    pageOutpost, pageCommission, pageMailbox, pageRecruit, pageRanking, pageEvent, pageStory1, pageStory2 := RunFromOutpost(pageMain, pageArk);
  }

  /** The module-level statements from `page_rookie_arena` to the end. */
  method RunFromRookieArena(pageArena: Page, pageMain: Page, pageArk: Page)
    returns (pageRookieArena: Page, pageSpecialArena: Page, pageOutpost: Page, pageCommission: Page, pageMailbox: Page, pageRecruit: Page, pageRanking: Page, pageEvent: Page, pageStory1: Page, pageStory2: Page)
    requires pageArena.id == Arena
    requires pageMain.id == Main
    requires pageArk.id == Ark
    modifies pageArena, pageMain, pageArk
    ensures fresh(pageRookieArena) && pageRookieArena.Valid() && pageRookieArena.id == RookieArena && pageRookieArena.links == Links(RookieArena)
    ensures fresh(pageSpecialArena) && pageSpecialArena.Valid() && pageSpecialArena.id == SpecialArena && pageSpecialArena.links == Links(SpecialArena)
    ensures fresh(pageOutpost) && pageOutpost.Valid() && pageOutpost.id == Outpost && pageOutpost.links == Links(Outpost)
    ensures fresh(pageCommission) && pageCommission.Valid() && pageCommission.id == Commission && pageCommission.links == Links(Commission)
    ensures fresh(pageMailbox) && pageMailbox.Valid() && pageMailbox.id == Mailbox && pageMailbox.links == Links(Mailbox)
    ensures fresh(pageRecruit) && pageRecruit.Valid() && pageRecruit.id == Recruit && pageRecruit.links == Links(Recruit)
    ensures fresh(pageRanking) && pageRanking.Valid() && pageRanking.id == Ranking && pageRanking.links == Links(Ranking)
    ensures fresh(pageEvent) && pageEvent.Valid() && pageEvent.id == Event && pageEvent.links == Links(Event)
    ensures fresh(pageStory1) && pageStory1.Valid() && pageStory1.id == Story1 && pageStory1.links == Links(Story1)
    ensures fresh(pageStory2) && pageStory2.Valid() && pageStory2.id == Story2 && pageStory2.links == Links(Story2)
    ensures pageArena.links == old(pageArena.links)[RookieArena := ARENA_GOTO_ROOKIE_ARENA][SpecialArena := ARENA_GOTO_SPECIAL_ARENA]
    ensures pageMain.links == old(pageMain.links)[Outpost := MAIN_GOTO_OUTPOST][Mailbox := MAIN_GOTO_MAILBOX][Recruit := MAIN_GOTO_RECRUIT][Event := MAIN_GOTO_EVENT]
    ensures pageArk.links == old(pageArk.links)[Ranking := ARK_GOTO_RANKING]
  {
    pageRookieArena := DeclareRookieArena(pageArena, pageMain);
    pageSpecialArena, pageOutpost, pageCommission, pageMailbox, pageRecruit, pageRanking, pageEvent, pageStory1, pageStory2 := RunFromSpecialArena(pageArena, pageMain, pageArk);
  }

  /** The module-level statements from `page_arena` to the end. */
  method RunFromArena(pageArk: Page, pageMain: Page)
    returns (pageArena: Page, pageRookieArena: Page, pageSpecialArena: Page, pageOutpost: Page, pageCommission: Page, pageMailbox: Page, pageRecruit: Page, pageRanking: Page, pageEvent: Page, pageStory1: Page, pageStory2: Page)
    requires pageArk.id == Ark
    requires pageMain.id == Main
    modifies pageArk, pageMain
    ensures fresh(pageArena) && pageArena.Valid() && pageArena.id == Arena && pageArena.links == Links(Arena)
    ensures fresh(pageRookieArena) && pageRookieArena.Valid() && pageRookieArena.id == RookieArena && pageRookieArena.links == Links(RookieArena)
    ensures fresh(pageSpecialArena) && pageSpecialArena.Valid() && pageSpecialArena.id == SpecialArena && pageSpecialArena.links == Links(SpecialArena)
    ensures fresh(pageOutpost) && pageOutpost.Valid() && pageOutpost.id == Outpost && pageOutpost.links == Links(Outpost)
    ensures fresh(pageCommission) && pageCommission.Valid() && pageCommission.id == Commission && pageCommission.links == Links(Commission)
    ensures fresh(pageMailbox) && pageMailbox.Valid() && pageMailbox.id == Mailbox && pageMailbox.links == Links(Mailbox)
    ensures fresh(pageRecruit) && pageRecruit.Valid() && pageRecruit.id == Recruit && pageRecruit.links == Links(Recruit)
    ensures fresh(pageRanking) && pageRanking.Valid() && pageRanking.id == Ranking && pageRanking.links == Links(Ranking)
    ensures fresh(pageEvent) && pageEvent.Valid() && pageEvent.id == Event && pageEvent.links == Links(Event)
    ensures fresh(pageStory1) && pageStory1.Valid() && pageStory1.id == Story1 && pageStory1.links == Links(Story1)
    ensures fresh(pageStory2) && pageStory2.Valid() && pageStory2.id == Story2 && pageStory2.links == Links(Story2)
    ensures pageArk.links == old(pageArk.links)[Arena := ARK_GOTO_ARENA][Ranking := ARK_GOTO_RANKING]
    ensures pageMain.links == old(pageMain.links)[Outpost := MAIN_GOTO_OUTPOST][Mailbox := MAIN_GOTO_MAILBOX][Recruit := MAIN_GOTO_RECRUIT][Event := MAIN_GOTO_EVENT]
  {
    pageArena := DeclareArena(pageArk, pageMain);
    pageRookieArena, pageSpecialArena, pageOutpost, pageCommission, pageMailbox, pageRecruit, pageRanking, pageEvent, pageStory1, pageStory2 := RunFromRookieArena(pageArena, pageMain, pageArk);
  }

  /** The module-level statements from `page_simulation_room` to the end. */
  method RunFromSimulationRoom(pageArk: Page, pageMain: Page)
    returns (pageSimulationRoom: Page, pageArena: Page, pageRookieArena: Page, pageSpecialArena: Page, pageOutpost: Page, pageCommission: Page, pageMailbox: Page, pageRecruit: Page, pageRanking: Page, pageEvent: Page, pageStory1: Page, pageStory2: Page)
    requires pageArk.id == Ark
    requires pageMain.id == Main
    modifies pageArk, pageMain
    ensures fresh(pageSimulationRoom) && pageSimulationRoom.Valid() && pageSimulationRoom.id == SimulationRoom && pageSimulationRoom.links == Links(SimulationRoom)
    ensures fresh(pageArena) && pageArena.Valid() && pageArena.id == Arena && pageArena.links == Links(Arena)
    ensures fresh(pageRookieArena) && pageRookieArena.Valid() && pageRookieArena.id == RookieArena && pageRookieArena.links == Links(RookieArena)
    ensures fresh(pageSpecialArena) && pageSpecialArena.Valid() && pageSpecialArena.id == SpecialArena && pageSpecialArena.links == Links(SpecialArena)
    ensures fresh(pageOutpost) && pageOutpost.Valid() && pageOutpost.id == Outpost && pageOutpost.links == Links(Outpost)
    ensures fresh(pageCommission) && pageCommission.Valid() && pageCommission.id == Commission && pageCommission.links == Links(Commission)
    ensures fresh(pageMailbox) && pageMailbox.Valid() && pageMailbox.id == Mailbox && pageMailbox.links == Links(Mailbox)
    ensures fresh(pageRecruit) && pageRecruit.Valid() && pageRecruit.id == Recruit && pageRecruit.links == Links(Recruit)
    ensures fresh(pageRanking) && pageRanking.Valid() && pageRanking.id == Ranking && pageRanking.links == Links(Ranking)
    ensures fresh(pageEvent) && pageEvent.Valid() && pageEvent.id == Event && pageEvent.links == Links(Event)
    ensures fresh(pageStory1) && pageStory1.Valid() && pageStory1.id == Story1 && pageStory1.links == Links(Story1)
    ensures fresh(pageStory2) && pageStory2.Valid() && pageStory2.id == Story2 && pageStory2.links == Links(Story2)
    ensures pageArk.links == old(pageArk.links)[SimulationRoom := ARK_GOTO_SIMULATION_ROOM][Arena := ARK_GOTO_ARENA][Ranking := ARK_GOTO_RANKING]
    ensures pageMain.links == old(pageMain.links)[Outpost := MAIN_GOTO_OUTPOST][Mailbox := MAIN_GOTO_MAILBOX][Recruit := MAIN_GOTO_RECRUIT][Event := MAIN_GOTO_EVENT]
  {
    pageSimulationRoom := DeclareSimulationRoom(pageArk, pageMain);
    pageArena, pageRookieArena, pageSpecialArena, pageOutpost, pageCommission, pageMailbox, pageRecruit, pageRanking, pageEvent, pageStory1, pageStory2 := RunFromArena(pageArk, pageMain);
  }

  /** The module-level statements from `page_special_interception` to the end. */
  method RunFromSpecialInterception(pageInterception: Page, pageMain: Page, pageArk: Page)
    returns (pageSpecialInterception: Page, pageSimulationRoom: Page, pageArena: Page, pageRookieArena: Page, pageSpecialArena: Page, pageOutpost: Page, pageCommission: Page, pageMailbox: Page, pageRecruit: Page, pageRanking: Page, pageEvent: Page, pageStory1: Page, pageStory2: Page)
    requires pageInterception.id == Interception
    requires pageMain.id == Main
    requires pageArk.id == Ark
    modifies pageMain, pageArk
    ensures fresh(pageSpecialInterception) && pageSpecialInterception.Valid() && pageSpecialInterception.id == SpecialInterception && pageSpecialInterception.links == Links(SpecialInterception)
    ensures fresh(pageSimulationRoom) && pageSimulationRoom.Valid() && pageSimulationRoom.id == SimulationRoom && pageSimulationRoom.links == Links(SimulationRoom)
    ensures fresh(pageArena) && pageArena.Valid() && pageArena.id == Arena && pageArena.links == Links(Arena)
    ensures fresh(pageRookieArena) && pageRookieArena.Valid() && pageRookieArena.id == RookieArena && pageRookieArena.links == Links(RookieArena)
    ensures fresh(pageSpecialArena) && pageSpecialArena.Valid() && pageSpecialArena.id == SpecialArena && pageSpecialArena.links == Links(SpecialArena)
    ensures fresh(pageOutpost) && pageOutpost.Valid() && pageOutpost.id == Outpost && pageOutpost.links == Links(Outpost)
    ensures fresh(pageCommission) && pageCommission.Valid() && pageCommission.id == Commission && pageCommission.links == Links(Commission)
    ensures fresh(pageMailbox) && pageMailbox.Valid() && pageMailbox.id == Mailbox && pageMailbox.links == Links(Mailbox)
    ensures fresh(pageRecruit) && pageRecruit.Valid() && pageRecruit.id == Recruit && pageRecruit.links == Links(Recruit)
    ensures fresh(pageRanking) && pageRanking.Valid() && pageRanking.id == Ranking && pageRanking.links == Links(Ranking)
    ensures fresh(pageEvent) && pageEvent.Valid() && pageEvent.id == Event && pageEvent.links == Links(Event)
    ensures fresh(pageStory1) && pageStory1.Valid() && pageStory1.id == Story1 && pageStory1.links == Links(Story1)
    ensures fresh(pageStory2) && pageStory2.Valid() && pageStory2.id == Story2 && pageStory2.links == Links(Story2)
    ensures pageMain.links == old(pageMain.links)[Outpost := MAIN_GOTO_OUTPOST][Mailbox := MAIN_GOTO_MAILBOX][Recruit := MAIN_GOTO_RECRUIT][Event := MAIN_GOTO_EVENT]
    ensures pageArk.links == old(pageArk.links)[SimulationRoom := ARK_GOTO_SIMULATION_ROOM][Arena := ARK_GOTO_ARENA][Ranking := ARK_GOTO_RANKING]
  {
    pageSpecialInterception := DeclareSpecialInterception(pageInterception, pageMain);
    pageSimulationRoom, pageArena, pageRookieArena, pageSpecialArena, pageOutpost, pageCommission, pageMailbox, pageRecruit, pageRanking, pageEvent, pageStory1, pageStory2 := RunFromSimulationRoom(pageArk, pageMain);
  }

  /** The module-level statements from `page_interception` to the end. */
  method RunFromInterception(pageArk: Page, pageMain: Page)
    returns (pageInterception: Page, pageSpecialInterception: Page, pageSimulationRoom: Page, pageArena: Page, pageRookieArena: Page, pageSpecialArena: Page, pageOutpost: Page, pageCommission: Page, pageMailbox: Page, pageRecruit: Page, pageRanking: Page, pageEvent: Page, pageStory1: Page, pageStory2: Page)
    requires pageArk.id == Ark
    requires pageMain.id == Main
    modifies pageArk, pageMain
    ensures fresh(pageInterception) && pageInterception.Valid() && pageInterception.id == Interception && pageInterception.links == Links(Interception)
    ensures fresh(pageSpecialInterception) && pageSpecialInterception.Valid() && pageSpecialInterception.id == SpecialInterception && pageSpecialInterception.links == Links(SpecialInterception)
    ensures fresh(pageSimulationRoom) && pageSimulationRoom.Valid() && pageSimulationRoom.id == SimulationRoom && pageSimulationRoom.links == Links(SimulationRoom)
    ensures fresh(pageArena) && pageArena.Valid() && pageArena.id == Arena && pageArena.links == Links(Arena)
    ensures fresh(pageRookieArena) && pageRookieArena.Valid() && pageRookieArena.id == RookieArena && pageRookieArena.links == Links(RookieArena)
    ensures fresh(pageSpecialArena) && pageSpecialArena.Valid() && pageSpecialArena.id == SpecialArena && pageSpecialArena.links == Links(SpecialArena)
    ensures fresh(pageOutpost) && pageOutpost.Valid() && pageOutpost.id == Outpost && pageOutpost.links == Links(Outpost)
    ensures fresh(pageCommission) && pageCommission.Valid() && pageCommission.id == Commission && pageCommission.links == Links(Commission)
    ensures fresh(pageMailbox) && pageMailbox.Valid() && pageMailbox.id == Mailbox && pageMailbox.links == Links(Mailbox)
    ensures fresh(pageRecruit) && pageRecruit.Valid() && pageRecruit.id == Recruit && pageRecruit.links == Links(Recruit)
    ensures fresh(pageRanking) && pageRanking.Valid() && pageRanking.id == Ranking && pageRanking.links == Links(Ranking)
    ensures fresh(pageEvent) && pageEvent.Valid() && pageEvent.id == Event && pageEvent.links == Links(Event)
    ensures fresh(pageStory1) && pageStory1.Valid() && pageStory1.id == Story1 && pageStory1.links == Links(Story1)
    ensures fresh(pageStory2) && pageStory2.Valid() && pageStory2.id == Story2 && pageStory2.links == Links(Story2)
    ensures pageArk.links == old(pageArk.links)[Interception := ARK_GOTO_INTERCEPTION][SimulationRoom := ARK_GOTO_SIMULATION_ROOM][Arena := ARK_GOTO_ARENA][Ranking := ARK_GOTO_RANKING]
    ensures pageMain.links == old(pageMain.links)[Outpost := MAIN_GOTO_OUTPOST][Mailbox := MAIN_GOTO_MAILBOX][Recruit := MAIN_GOTO_RECRUIT][Event := MAIN_GOTO_EVENT]
  {
    pageInterception := DeclareInterception(pageArk, pageMain);
    pageSpecialInterception, pageSimulationRoom, pageArena, pageRookieArena, pageSpecialArena, pageOutpost, pageCommission, pageMailbox, pageRecruit, pageRanking, pageEvent, pageStory1, pageStory2 := RunFromSpecialInterception(pageInterception, pageMain, pageArk);
  }

  /** The module-level statements from `page_tribe_tower` to the end. */
  method RunFromTribeTower(pageArk: Page, pageMain: Page)
    returns (pageTribeTower: Page, pageInterception: Page, pageSpecialInterception: Page, pageSimulationRoom: Page, pageArena: Page, pageRookieArena: Page, pageSpecialArena: Page, pageOutpost: Page, pageCommission: Page, pageMailbox: Page, pageRecruit: Page, pageRanking: Page, pageEvent: Page, pageStory1: Page, pageStory2: Page)
    requires pageArk.id == Ark
    requires pageMain.id == Main
    modifies pageArk, pageMain
    ensures fresh(pageTribeTower) && pageTribeTower.Valid() && pageTribeTower.id == TribeTower && pageTribeTower.links == Links(TribeTower)
    ensures fresh(pageInterception) && pageInterception.Valid() && pageInterception.id == Interception && pageInterception.links == Links(Interception)
    ensures fresh(pageSpecialInterception) && pageSpecialInterception.Valid() && pageSpecialInterception.id == SpecialInterception && pageSpecialInterception.links == Links(SpecialInterception)
    ensures fresh(pageSimulationRoom) && pageSimulationRoom.Valid() && pageSimulationRoom.id == SimulationRoom && pageSimulationRoom.links == Links(SimulationRoom)
    ensures fresh(pageArena) && pageArena.Valid() && pageArena.id == Arena && pageArena.links == Links(Arena)
    ensures fresh(pageRookieArena) && pageRookieArena.Valid() && pageRookieArena.id == RookieArena && pageRookieArena.links == Links(RookieArena)
    ensures fresh(pageSpecialArena) && pageSpecialArena.Valid() && pageSpecialArena.id == SpecialArena && pageSpecialArena.links == Links(SpecialArena)
    ensures fresh(pageOutpost) && pageOutpost.Valid() && pageOutpost.id == Outpost && pageOutpost.links == Links(Outpost)
    ensures fresh(pageCommission) && pageCommission.Valid() && pageCommission.id == Commission && pageCommission.links == Links(Commission)
    ensures fresh(pageMailbox) && pageMailbox.Valid() && pageMailbox.id == Mailbox && pageMailbox.links == Links(Mailbox)
    ensures fresh(pageRecruit) && pageRecruit.Valid() && pageRecruit.id == Recruit && pageRecruit.links == Links(Recruit)
    ensures fresh(pageRanking) && pageRanking.Valid() && pageRanking.id == Ranking && pageRanking.links == Links(Ranking)
    ensures fresh(pageEvent) && pageEvent.Valid() && pageEvent.id == Event && pageEvent.links == Links(Event)
    ensures fresh(pageStory1) && pageStory1.Valid() && pageStory1.id == Story1 && pageStory1.links == Links(Story1)
    ensures fresh(pageStory2) && pageStory2.Valid() && pageStory2.id == Story2 && pageStory2.links == Links(Story2)
    ensures pageArk.links == old(pageArk.links)[TribeTower := ARK_GOTO_TRIBE_TOWER][Interception := ARK_GOTO_INTERCEPTION][SimulationRoom := ARK_GOTO_SIMULATION_ROOM][Arena := ARK_GOTO_ARENA][Ranking := ARK_GOTO_RANKING]
    ensures pageMain.links == old(pageMain.links)[Outpost := MAIN_GOTO_OUTPOST][Mailbox := MAIN_GOTO_MAILBOX][Recruit := MAIN_GOTO_RECRUIT][Event := MAIN_GOTO_EVENT]
  {
    pageTribeTower := DeclareTribeTower(pageArk, pageMain);
    pageInterception, pageSpecialInterception, pageSimulationRoom, pageArena, pageRookieArena, pageSpecialArena, pageOutpost, pageCommission, pageMailbox, pageRecruit, pageRanking, pageEvent, pageStory1, pageStory2 := RunFromInterception(pageArk, pageMain);
  }

  /** The module-level statements from `page_ark` to the end. */
  method RunFromArk(pageMain: Page)
    returns (pageArk: Page, pageTribeTower: Page, pageInterception: Page, pageSpecialInterception: Page, pageSimulationRoom: Page, pageArena: Page, pageRookieArena: Page, pageSpecialArena: Page, pageOutpost: Page, pageCommission: Page, pageMailbox: Page, pageRecruit: Page, pageRanking: Page, pageEvent: Page, pageStory1: Page, pageStory2: Page)
    requires pageMain.id == Main
    modifies pageMain
    ensures fresh(pageArk) && pageArk.Valid() && pageArk.id == Ark && pageArk.links == Links(Ark)
    ensures fresh(pageTribeTower) && pageTribeTower.Valid() && pageTribeTower.id == TribeTower && pageTribeTower.links == Links(TribeTower)
    ensures fresh(pageInterception) && pageInterception.Valid() && pageInterception.id == Interception && pageInterception.links == Links(Interception)
    ensures fresh(pageSpecialInterception) && pageSpecialInterception.Valid() && pageSpecialInterception.id == SpecialInterception && pageSpecialInterception.links == Links(SpecialInterception)
    ensures fresh(pageSimulationRoom) && pageSimulationRoom.Valid() && pageSimulationRoom.id == SimulationRoom && pageSimulationRoom.links == Links(SimulationRoom)
    ensures fresh(pageArena) && pageArena.Valid() && pageArena.id == Arena && pageArena.links == Links(Arena)
    ensures fresh(pageRookieArena) && pageRookieArena.Valid() && pageRookieArena.id == RookieArena && pageRookieArena.links == Links(RookieArena)
    ensures fresh(pageSpecialArena) && pageSpecialArena.Valid() && pageSpecialArena.id == SpecialArena && pageSpecialArena.links == Links(SpecialArena)
    ensures fresh(pageOutpost) && pageOutpost.Valid() && pageOutpost.id == Outpost && pageOutpost.links == Links(Outpost)
    ensures fresh(pageCommission) && pageCommission.Valid() && pageCommission.id == Commission && pageCommission.links == Links(Commission)
    ensures fresh(pageMailbox) && pageMailbox.Valid() && pageMailbox.id == Mailbox && pageMailbox.links == Links(Mailbox)
    ensures fresh(pageRecruit) && pageRecruit.Valid() && pageRecruit.id == Recruit && pageRecruit.links == Links(Recruit)
    ensures fresh(pageRanking) && pageRanking.Valid() && pageRanking.id == Ranking && pageRanking.links == Links(Ranking)
    ensures fresh(pageEvent) && pageEvent.Valid() && pageEvent.id == Event && pageEvent.links == Links(Event)
    ensures fresh(pageStory1) && pageStory1.Valid() && pageStory1.id == Story1 && pageStory1.links == Links(Story1)
    ensures fresh(pageStory2) && pageStory2.Valid() && pageStory2.id == Story2 && pageStory2.links == Links(Story2)
    ensures pageMain.links == old(pageMain.links)[Ark := MAIN_GOTO_ARK][Outpost := MAIN_GOTO_OUTPOST][Mailbox := MAIN_GOTO_MAILBOX][Recruit := MAIN_GOTO_RECRUIT][Event := MAIN_GOTO_EVENT]
  {
    pageArk := DeclareArk(pageMain);
    pageTribeTower, pageInterception, pageSpecialInterception, pageSimulationRoom, pageArena, pageRookieArena, pageSpecialArena, pageOutpost, pageCommission, pageMailbox, pageRecruit, pageRanking, pageEvent, pageStory1, pageStory2 := RunFromTribeTower(pageArk, pageMain);
  }

  /** The module-level statements from `page_conversation` to the end. */
  method RunFromConversation(pageTeam: Page, pageMain: Page)
    returns (pageConversation: Page, pageArk: Page, pageTribeTower: Page, pageInterception: Page, pageSpecialInterception: Page, pageSimulationRoom: Page, pageArena: Page, pageRookieArena: Page, pageSpecialArena: Page, pageOutpost: Page, pageCommission: Page, pageMailbox: Page, pageRecruit: Page, pageRanking: Page, pageEvent: Page, pageStory1: Page, pageStory2: Page)
    requires pageTeam.id == Team
    requires pageMain.id == Main
    modifies pageTeam, pageMain
    ensures fresh(pageConversation) && pageConversation.Valid() && pageConversation.id == Conversation && pageConversation.links == Links(Conversation)
    ensures fresh(pageArk) && pageArk.Valid() && pageArk.id == Ark && pageArk.links == Links(Ark)
    ensures fresh(pageTribeTower) && pageTribeTower.Valid() && pageTribeTower.id == TribeTower && pageTribeTower.links == Links(TribeTower)
    ensures fresh(pageInterception) && pageInterception.Valid() && pageInterception.id == Interception && pageInterception.links == Links(Interception)
    ensures fresh(pageSpecialInterception) && pageSpecialInterception.Valid() && pageSpecialInterception.id == SpecialInterception && pageSpecialInterception.links == Links(SpecialInterception)
    ensures fresh(pageSimulationRoom) && pageSimulationRoom.Valid() && pageSimulationRoom.id == SimulationRoom && pageSimulationRoom.links == Links(SimulationRoom)
    ensures fresh(pageArena) && pageArena.Valid() && pageArena.id == Arena && pageArena.links == Links(Arena)
    ensures fresh(pageRookieArena) && pageRookieArena.Valid() && pageRookieArena.id == RookieArena && pageRookieArena.links == Links(RookieArena)
    ensures fresh(pageSpecialArena) && pageSpecialArena.Valid() && pageSpecialArena.id == SpecialArena && pageSpecialArena.links == Links(SpecialArena)
    ensures fresh(pageOutpost) && pageOutpost.Valid() && pageOutpost.id == Outpost && pageOutpost.links == Links(Outpost)
    ensures fresh(pageCommission) && pageCommission.Valid() && pageCommission.id == Commission && pageCommission.links == Links(Commission)
    ensures fresh(pageMailbox) && pageMailbox.Valid() && pageMailbox.id == Mailbox && pageMailbox.links == Links(Mailbox)
    ensures fresh(pageRecruit) && pageRecruit.Valid() && pageRecruit.id == Recruit && pageRecruit.links == Links(Recruit)
    ensures fresh(pageRanking) && pageRanking.Valid() && pageRanking.id == Ranking && pageRanking.links == Links(Ranking)
    ensures fresh(pageEvent) && pageEvent.Valid() && pageEvent.id == Event && pageEvent.links == Links(Event)
    ensures fresh(pageStory1) && pageStory1.Valid() && pageStory1.id == Story1 && pageStory1.links == Links(Story1)
    ensures fresh(pageStory2) && pageStory2.Valid() && pageStory2.id == Story2 && pageStory2.links == Links(Story2)
    ensures pageTeam.links == old(pageTeam.links)[Conversation := TEAM_GOTO_CONVERSATION]
    ensures pageMain.links == old(pageMain.links)[Ark := MAIN_GOTO_ARK][Outpost := MAIN_GOTO_OUTPOST][Mailbox := MAIN_GOTO_MAILBOX][Recruit := MAIN_GOTO_RECRUIT][Event := MAIN_GOTO_EVENT]
  {
    pageConversation := DeclareConversation(pageTeam, pageMain);
    pageArk, pageTribeTower, pageInterception, pageSpecialInterception, pageSimulationRoom, pageArena, pageRookieArena, pageSpecialArena, pageOutpost, pageCommission, pageMailbox, pageRecruit, pageRanking, pageEvent, pageStory1, pageStory2 := RunFromArk(pageMain);
  }

  /** The module-level statements from `page_pass` to the end. */
  method RunFromPass(pageMain: Page, pageTeam: Page)
    returns (pagePass: Page, pageConversation: Page, pageArk: Page, pageTribeTower: Page, pageInterception: Page, pageSpecialInterception: Page, pageSimulationRoom: Page, pageArena: Page, pageRookieArena: Page, pageSpecialArena: Page, pageOutpost: Page, pageCommission: Page, pageMailbox: Page, pageRecruit: Page, pageRanking: Page, pageEvent: Page, pageStory1: Page, pageStory2: Page)
    requires pageMain.id == Main
    requires pageTeam.id == Team
    modifies pageMain, pageTeam
    ensures fresh(pagePass) && pagePass.Valid() && pagePass.id == Pass && pagePass.links == Links(Pass)
    ensures fresh(pageConversation) && pageConversation.Valid() && pageConversation.id == Conversation && pageConversation.links == Links(Conversation)
    ensures fresh(pageArk) && pageArk.Valid() && pageArk.id == Ark && pageArk.links == Links(Ark)
    ensures fresh(pageTribeTower) && pageTribeTower.Valid() && pageTribeTower.id == TribeTower && pageTribeTower.links == Links(TribeTower)
    ensures fresh(pageInterception) && pageInterception.Valid() && pageInterception.id == Interception && pageInterception.links == Links(Interception)
    ensures fresh(pageSpecialInterception) && pageSpecialInterception.Valid() && pageSpecialInterception.id == SpecialInterception && pageSpecialInterception.links == Links(SpecialInterception)
    ensures fresh(pageSimulationRoom) && pageSimulationRoom.Valid() && pageSimulationRoom.id == SimulationRoom && pageSimulationRoom.links == Links(SimulationRoom)
    ensures fresh(pageArena) && pageArena.Valid() && pageArena.id == Arena && pageArena.links == Links(Arena)
    ensures fresh(pageRookieArena) && pageRookieArena.Valid() && pageRookieArena.id == RookieArena && pageRookieArena.links == Links(RookieArena)
    ensures fresh(pageSpecialArena) && pageSpecialArena.Valid() && pageSpecialArena.id == SpecialArena && pageSpecialArena.links == Links(SpecialArena)
    ensures fresh(pageOutpost) && pageOutpost.Valid() && pageOutpost.id == Outpost && pageOutpost.links == Links(Outpost)
    ensures fresh(pageCommission) && pageCommission.Valid() && pageCommission.id == Commission && pageCommission.links == Links(Commission)
    ensures fresh(pageMailbox) && pageMailbox.Valid() && pageMailbox.id == Mailbox && pageMailbox.links == Links(Mailbox)
    ensures fresh(pageRecruit) && pageRecruit.Valid() && pageRecruit.id == Recruit && pageRecruit.links == Links(Recruit)
    ensures fresh(pageRanking) && pageRanking.Valid() && pageRanking.id == Ranking && pageRanking.links == Links(Ranking)
    ensures fresh(pageEvent) && pageEvent.Valid() && pageEvent.id == Event && pageEvent.links == Links(Event)
    ensures fresh(pageStory1) && pageStory1.Valid() && pageStory1.id == Story1 && pageStory1.links == Links(Story1)
    ensures fresh(pageStory2) && pageStory2.Valid() && pageStory2.id == Story2 && pageStory2.links == Links(Story2)
    ensures pageMain.links == old(pageMain.links)[Pass := MAIN_GOTO_PASS][Ark := MAIN_GOTO_ARK][Outpost := MAIN_GOTO_OUTPOST][Mailbox := MAIN_GOTO_MAILBOX][Recruit := MAIN_GOTO_RECRUIT][Event := MAIN_GOTO_EVENT]
    ensures pageTeam.links == old(pageTeam.links)[Conversation := TEAM_GOTO_CONVERSATION]
  {
    pagePass := DeclarePass(pageMain);
    pageConversation, pageArk, pageTribeTower, pageInterception, pageSpecialInterception, pageSimulationRoom, pageArena, pageRookieArena, pageSpecialArena, pageOutpost, pageCommission, pageMailbox, pageRecruit, pageRanking, pageEvent, pageStory1, pageStory2 := RunFromConversation(pageTeam, pageMain);
  }

  /** The module-level statements from `page_inventory` to the end. */
  method RunFromInventory(pageMain: Page, pageTeam: Page)
    returns (pageInventory: Page, pagePass: Page, pageConversation: Page, pageArk: Page, pageTribeTower: Page, pageInterception: Page, pageSpecialInterception: Page, pageSimulationRoom: Page, pageArena: Page, pageRookieArena: Page, pageSpecialArena: Page, pageOutpost: Page, pageCommission: Page, pageMailbox: Page, pageRecruit: Page, pageRanking: Page, pageEvent: Page, pageStory1: Page, pageStory2: Page)
    requires pageMain.id == Main
    requires pageTeam.id == Team
    modifies pageMain, pageTeam
    ensures fresh(pageInventory) && pageInventory.Valid() && pageInventory.id == Inventory && pageInventory.links == Links(Inventory)
    ensures fresh(pagePass) && pagePass.Valid() && pagePass.id == Pass && pagePass.links == Links(Pass)
    ensures fresh(pageConversation) && pageConversation.Valid() && pageConversation.id == Conversation && pageConversation.links == Links(Conversation)
    ensures fresh(pageArk) && pageArk.Valid() && pageArk.id == Ark && pageArk.links == Links(Ark)
    ensures fresh(pageTribeTower) && pageTribeTower.Valid() && pageTribeTower.id == TribeTower && pageTribeTower.links == Links(TribeTower)
    ensures fresh(pageInterception) && pageInterception.Valid() && pageInterception.id == Interception && pageInterception.links == Links(Interception)
    ensures fresh(pageSpecialInterception) && pageSpecialInterception.Valid() && pageSpecialInterception.id == SpecialInterception && pageSpecialInterception.links == Links(SpecialInterception)
    ensures fresh(pageSimulationRoom) && pageSimulationRoom.Valid() && pageSimulationRoom.id == SimulationRoom && pageSimulationRoom.links == Links(SimulationRoom)
    ensures fresh(pageArena) && pageArena.Valid() && pageArena.id == Arena && pageArena.links == Links(Arena)
    ensures fresh(pageRookieArena) && pageRookieArena.Valid() && pageRookieArena.id == RookieArena && pageRookieArena.links == Links(RookieArena)
    ensures fresh(pageSpecialArena) && pageSpecialArena.Valid() && pageSpecialArena.id == SpecialArena && pageSpecialArena.links == Links(SpecialArena)
    ensures fresh(pageOutpost) && pageOutpost.Valid() && pageOutpost.id == Outpost && pageOutpost.links == Links(Outpost)
    ensures fresh(pageCommission) && pageCommission.Valid() && pageCommission.id == Commission && pageCommission.links == Links(Commission)
    ensures fresh(pageMailbox) && pageMailbox.Valid() && pageMailbox.id == Mailbox && pageMailbox.links == Links(Mailbox)
    ensures fresh(pageRecruit) && pageRecruit.Valid() && pageRecruit.id == Recruit && pageRecruit.links == Links(Recruit)
    ensures fresh(pageRanking) && pageRanking.Valid() && pageRanking.id == Ranking && pageRanking.links == Links(Ranking)
    ensures fresh(pageEvent) && pageEvent.Valid() && pageEvent.id == Event && pageEvent.links == Links(Event)
    ensures fresh(pageStory1) && pageStory1.Valid() && pageStory1.id == Story1 && pageStory1.links == Links(Story1)
    ensures fresh(pageStory2) && pageStory2.Valid() && pageStory2.id == Story2 && pageStory2.links == Links(Story2)
    ensures pageMain.links == old(pageMain.links)[Inventory := MAIN_GOTO_INVENTORY][Pass := MAIN_GOTO_PASS][Ark := MAIN_GOTO_ARK][Outpost := MAIN_GOTO_OUTPOST][Mailbox := MAIN_GOTO_MAILBOX][Recruit := MAIN_GOTO_RECRUIT][Event := MAIN_GOTO_EVENT]
    ensures pageTeam.links == old(pageTeam.links)[Conversation := TEAM_GOTO_CONVERSATION]
  {
    pageInventory := DeclareInventory(pageMain);
    pagePass, pageConversation, pageArk, pageTribeTower, pageInterception, pageSpecialInterception, pageSimulationRoom, pageArena, pageRookieArena, pageSpecialArena, pageOutpost, pageCommission, pageMailbox, pageRecruit, pageRanking, pageEvent, pageStory1, pageStory2 := RunFromPass(pageMain, pageTeam);
  }

  /** The module-level statements from `page_team` to the end. */
  method RunFromTeam(pageMain: Page)
    returns (pageTeam: Page, pageInventory: Page, pagePass: Page, pageConversation: Page, pageArk: Page, pageTribeTower: Page, pageInterception: Page, pageSpecialInterception: Page, pageSimulationRoom: Page, pageArena: Page, pageRookieArena: Page, pageSpecialArena: Page, pageOutpost: Page, pageCommission: Page, pageMailbox: Page, pageRecruit: Page, pageRanking: Page, pageEvent: Page, pageStory1: Page, pageStory2: Page)
    requires pageMain.id == Main
    modifies pageMain
    ensures fresh(pageTeam) && pageTeam.Valid() && pageTeam.id == Team && pageTeam.links == Links(Team)
    ensures fresh(pageInventory) && pageInventory.Valid() && pageInventory.id == Inventory && pageInventory.links == Links(Inventory)
    ensures fresh(pagePass) && pagePass.Valid() && pagePass.id == Pass && pagePass.links == Links(Pass)
    ensures fresh(pageConversation) && pageConversation.Valid() && pageConversation.id == Conversation && pageConversation.links == Links(Conversation)
    ensures fresh(pageArk) && pageArk.Valid() && pageArk.id == Ark && pageArk.links == Links(Ark)
    ensures fresh(pageTribeTower) && pageTribeTower.Valid() && pageTribeTower.id == TribeTower && pageTribeTower.links == Links(TribeTower)
    ensures fresh(pageInterception) && pageInterception.Valid() && pageInterception.id == Interception && pageInterception.links == Links(Interception)
    ensures fresh(pageSpecialInterception) && pageSpecialInterception.Valid() && pageSpecialInterception.id == SpecialInterception && pageSpecialInterception.links == Links(SpecialInterception)
    ensures fresh(pageSimulationRoom) && pageSimulationRoom.Valid() && pageSimulationRoom.id == SimulationRoom && pageSimulationRoom.links == Links(SimulationRoom)
    ensures fresh(pageArena) && pageArena.Valid() && pageArena.id == Arena && pageArena.links == Links(Arena)
    ensures fresh(pageRookieArena) && pageRookieArena.Valid() && pageRookieArena.id == RookieArena && pageRookieArena.links == Links(RookieArena)
    ensures fresh(pageSpecialArena) && pageSpecialArena.Valid() && pageSpecialArena.id == SpecialArena && pageSpecialArena.links == Links(SpecialArena)
    ensures fresh(pageOutpost) && pageOutpost.Valid() && pageOutpost.id == Outpost && pageOutpost.links == Links(Outpost)
    ensures fresh(pageCommission) && pageCommission.Valid() && pageCommission.id == Commission && pageCommission.links == Links(Commission)
    ensures fresh(pageMailbox) && pageMailbox.Valid() && pageMailbox.id == Mailbox && pageMailbox.links == Links(Mailbox)
    ensures fresh(pageRecruit) && pageRecruit.Valid() && pageRecruit.id == Recruit && pageRecruit.links == Links(Recruit)
    ensures fresh(pageRanking) && pageRanking.Valid() && pageRanking.id == Ranking && pageRanking.links == Links(Ranking)
    ensures fresh(pageEvent) && pageEvent.Valid() && pageEvent.id == Event && pageEvent.links == Links(Event)
    ensures fresh(pageStory1) && pageStory1.Valid() && pageStory1.id == Story1 && pageStory1.links == Links(Story1)
    ensures fresh(pageStory2) && pageStory2.Valid() && pageStory2.id == Story2 && pageStory2.links == Links(Story2)
    ensures pageMain.links == old(pageMain.links)[Team := MAIN_GOTO_TEAM][Inventory := MAIN_GOTO_INVENTORY][Pass := MAIN_GOTO_PASS][Ark := MAIN_GOTO_ARK][Outpost := MAIN_GOTO_OUTPOST][Mailbox := MAIN_GOTO_MAILBOX][Recruit := MAIN_GOTO_RECRUIT][Event := MAIN_GOTO_EVENT]
  {
    pageTeam := DeclareTeam(pageMain);
    pageInventory, pagePass, pageConversation, pageArk, pageTribeTower, pageInterception, pageSpecialInterception, pageSimulationRoom, pageArena, pageRookieArena, pageSpecialArena, pageOutpost, pageCommission, pageMailbox, pageRecruit, pageRanking, pageEvent, pageStory1, pageStory2 := RunFromInventory(pageMain, pageTeam);
  }

  /** The module-level statements from `page_cash_shop` to the end. */
  method RunFromCashShop(pageMain: Page)
    returns (pageCashShop: Page, pageTeam: Page, pageInventory: Page, pagePass: Page, pageConversation: Page, pageArk: Page, pageTribeTower: Page, pageInterception: Page, pageSpecialInterception: Page, pageSimulationRoom: Page, pageArena: Page, pageRookieArena: Page, pageSpecialArena: Page, pageOutpost: Page, pageCommission: Page, pageMailbox: Page, pageRecruit: Page, pageRanking: Page, pageEvent: Page, pageStory1: Page, pageStory2: Page)
    requires pageMain.id == Main
    modifies pageMain
    ensures fresh(pageCashShop) && pageCashShop.Valid() && pageCashShop.id == CashShop && pageCashShop.links == Links(CashShop)
    ensures fresh(pageTeam) && pageTeam.Valid() && pageTeam.id == Team && pageTeam.links == Links(Team)
    ensures fresh(pageInventory) && pageInventory.Valid() && pageInventory.id == Inventory && pageInventory.links == Links(Inventory)
    ensures fresh(pagePass) && pagePass.Valid() && pagePass.id == Pass && pagePass.links == Links(Pass)
    ensures fresh(pageConversation) && pageConversation.Valid() && pageConversation.id == Conversation && pageConversation.links == Links(Conversation)
    ensures fresh(pageArk) && pageArk.Valid() && pageArk.id == Ark && pageArk.links == Links(Ark)
    ensures fresh(pageTribeTower) && pageTribeTower.Valid() && pageTribeTower.id == TribeTower && pageTribeTower.links == Links(TribeTower)
    ensures fresh(pageInterception) && pageInterception.Valid() && pageInterception.id == Interception && pageInterception.links == Links(Interception)
    ensures fresh(pageSpecialInterception) && pageSpecialInterception.Valid() && pageSpecialInterception.id == SpecialInterception && pageSpecialInterception.links == Links(SpecialInterception)
    ensures fresh(pageSimulationRoom) && pageSimulationRoom.Valid() && pageSimulationRoom.id == SimulationRoom && pageSimulationRoom.links == Links(SimulationRoom)
    ensures fresh(pageArena) && pageArena.Valid() && pageArena.id == Arena && pageArena.links == Links(Arena)
    ensures fresh(pageRookieArena) && pageRookieArena.Valid() && pageRookieArena.id == RookieArena && pageRookieArena.links == Links(RookieArena)
    ensures fresh(pageSpecialArena) && pageSpecialArena.Valid() && pageSpecialArena.id == SpecialArena && pageSpecialArena.links == Links(SpecialArena)
    ensures fresh(pageOutpost) && pageOutpost.Valid() && pageOutpost.id == Outpost && pageOutpost.links == Links(Outpost)
    ensures fresh(pageCommission) && pageCommission.Valid() && pageCommission.id == Commission && pageCommission.links == Links(Commission)
    ensures fresh(pageMailbox) && pageMailbox.Valid() && pageMailbox.id == Mailbox && pageMailbox.links == Links(Mailbox)
    ensures fresh(pageRecruit) && pageRecruit.Valid() && pageRecruit.id == Recruit && pageRecruit.links == Links(Recruit)
    ensures fresh(pageRanking) && pageRanking.Valid() && pageRanking.id == Ranking && pageRanking.links == Links(Ranking)
    ensures fresh(pageEvent) && pageEvent.Valid() && pageEvent.id == Event && pageEvent.links == Links(Event)
    ensures fresh(pageStory1) && pageStory1.Valid() && pageStory1.id == Story1 && pageStory1.links == Links(Story1)
    ensures fresh(pageStory2) && pageStory2.Valid() && pageStory2.id == Story2 && pageStory2.links == Links(Story2)
    ensures pageMain.links == old(pageMain.links)[CashShop := MAIN_GOTO_CASH_SHOP][Team := MAIN_GOTO_TEAM][Inventory := MAIN_GOTO_INVENTORY][Pass := MAIN_GOTO_PASS][Ark := MAIN_GOTO_ARK][Outpost := MAIN_GOTO_OUTPOST][Mailbox := MAIN_GOTO_MAILBOX][Recruit := MAIN_GOTO_RECRUIT][Event := MAIN_GOTO_EVENT]
  {
    pageCashShop := DeclareCashShop(pageMain);
    pageTeam, pageInventory, pagePass, pageConversation, pageArk, pageTribeTower, pageInterception, pageSpecialInterception, pageSimulationRoom, pageArena, pageRookieArena, pageSpecialArena, pageOutpost, pageCommission, pageMailbox, pageRecruit, pageRanking, pageEvent, pageStory1, pageStory2 := RunFromTeam(pageMain);
  }

  /** The module-level statements from `page_shop` to the end. */
  method RunFromShop(pageMain: Page)
    returns (pageShop: Page, pageCashShop: Page, pageTeam: Page, pageInventory: Page, pagePass: Page, pageConversation: Page, pageArk: Page, pageTribeTower: Page, pageInterception: Page, pageSpecialInterception: Page, pageSimulationRoom: Page, pageArena: Page, pageRookieArena: Page, pageSpecialArena: Page, pageOutpost: Page, pageCommission: Page, pageMailbox: Page, pageRecruit: Page, pageRanking: Page, pageEvent: Page, pageStory1: Page, pageStory2: Page)
    requires pageMain.id == Main
    modifies pageMain
    ensures fresh(pageShop) && pageShop.Valid() && pageShop.id == Shop && pageShop.links == Links(Shop)
    ensures fresh(pageCashShop) && pageCashShop.Valid() && pageCashShop.id == CashShop && pageCashShop.links == Links(CashShop)
    ensures fresh(pageTeam) && pageTeam.Valid() && pageTeam.id == Team && pageTeam.links == Links(Team)
    ensures fresh(pageInventory) && pageInventory.Valid() && pageInventory.id == Inventory && pageInventory.links == Links(Inventory)
    ensures fresh(pagePass) && pagePass.Valid() && pagePass.id == Pass && pagePass.links == Links(Pass)
    ensures fresh(pageConversation) && pageConversation.Valid() && pageConversation.id == Conversation && pageConversation.links == Links(Conversation)
    ensures fresh(pageArk) && pageArk.Valid() && pageArk.id == Ark && pageArk.links == Links(Ark)
    ensures fresh(pageTribeTower) && pageTribeTower.Valid() && pageTribeTower.id == TribeTower && pageTribeTower.links == Links(TribeTower)
    ensures fresh(pageInterception) && pageInterception.Valid() && pageInterception.id == Interception && pageInterception.links == Links(Interception)
    ensures fresh(pageSpecialInterception) && pageSpecialInterception.Valid() && pageSpecialInterception.id == SpecialInterception && pageSpecialInterception.links == Links(SpecialInterception)
    ensures fresh(pageSimulationRoom) && pageSimulationRoom.Valid() && pageSimulationRoom.id == SimulationRoom && pageSimulationRoom.links == Links(SimulationRoom)
    ensures fresh(pageArena) && pageArena.Valid() && pageArena.id == Arena && pageArena.links == Links(Arena)
    ensures fresh(pageRookieArena) && pageRookieArena.Valid() && pageRookieArena.id == RookieArena && pageRookieArena.links == Links(RookieArena)
    ensures fresh(pageSpecialArena) && pageSpecialArena.Valid() && pageSpecialArena.id == SpecialArena && pageSpecialArena.links == Links(SpecialArena)
    ensures fresh(pageOutpost) && pageOutpost.Valid() && pageOutpost.id == Outpost && pageOutpost.links == Links(Outpost)
    ensures fresh(pageCommission) && pageCommission.Valid() && pageCommission.id == Commission && pageCommission.links == Links(Commission)
    ensures fresh(pageMailbox) && pageMailbox.Valid() && pageMailbox.id == Mailbox && pageMailbox.links == Links(Mailbox)
    ensures fresh(pageRecruit) && pageRecruit.Valid() && pageRecruit.id == Recruit && pageRecruit.links == Links(Recruit)
    ensures fresh(pageRanking) && pageRanking.Valid() && pageRanking.id == Ranking && pageRanking.links == Links(Ranking)
    ensures fresh(pageEvent) && pageEvent.Valid() && pageEvent.id == Event && pageEvent.links == Links(Event)
    ensures fresh(pageStory1) && pageStory1.Valid() && pageStory1.id == Story1 && pageStory1.links == Links(Story1)
    ensures fresh(pageStory2) && pageStory2.Valid() && pageStory2.id == Story2 && pageStory2.links == Links(Story2)
    ensures pageMain.links == old(pageMain.links)[Shop := MAIN_GOTO_SHOP][CashShop := MAIN_GOTO_CASH_SHOP][Team := MAIN_GOTO_TEAM][Inventory := MAIN_GOTO_INVENTORY][Pass := MAIN_GOTO_PASS][Ark := MAIN_GOTO_ARK][Outpost := MAIN_GOTO_OUTPOST][Mailbox := MAIN_GOTO_MAILBOX][Recruit := MAIN_GOTO_RECRUIT][Event := MAIN_GOTO_EVENT]
  {
    pageShop := DeclareShop(pageMain);
    pageCashShop, pageTeam, pageInventory, pagePass, pageConversation, pageArk, pageTribeTower, pageInterception, pageSpecialInterception, pageSimulationRoom, pageArena, pageRookieArena, pageSpecialArena, pageOutpost, pageCommission, pageMailbox, pageRecruit, pageRanking, pageEvent, pageStory1, pageStory2 := RunFromCashShop(pageMain);
  }

  /** The module-level statements from `page_daily` to the end. */
  method RunFromDaily(pageMain: Page)
    returns (pageDaily: Page, pageShop: Page, pageCashShop: Page, pageTeam: Page, pageInventory: Page, pagePass: Page, pageConversation: Page, pageArk: Page, pageTribeTower: Page, pageInterception: Page, pageSpecialInterception: Page, pageSimulationRoom: Page, pageArena: Page, pageRookieArena: Page, pageSpecialArena: Page, pageOutpost: Page, pageCommission: Page, pageMailbox: Page, pageRecruit: Page, pageRanking: Page, pageEvent: Page, pageStory1: Page, pageStory2: Page)
    requires pageMain.id == Main
    modifies pageMain
    ensures fresh(pageDaily) && pageDaily.Valid() && pageDaily.id == Daily && pageDaily.links == Links(Daily)
    ensures fresh(pageShop) && pageShop.Valid() && pageShop.id == Shop && pageShop.links == Links(Shop)
    ensures fresh(pageCashShop) && pageCashShop.Valid() && pageCashShop.id == CashShop && pageCashShop.links == Links(CashShop)
    ensures fresh(pageTeam) && pageTeam.Valid() && pageTeam.id == Team && pageTeam.links == Links(Team)
    ensures fresh(pageInventory) && pageInventory.Valid() && pageInventory.id == Inventory && pageInventory.links == Links(Inventory)
    ensures fresh(pagePass) && pagePass.Valid() && pagePass.id == Pass && pagePass.links == Links(Pass)
    ensures fresh(pageConversation) && pageConversation.Valid() && pageConversation.id == Conversation && pageConversation.links == Links(Conversation)
    ensures fresh(pageArk) && pageArk.Valid() && pageArk.id == Ark && pageArk.links == Links(Ark)
    ensures fresh(pageTribeTower) && pageTribeTower.Valid() && pageTribeTower.id == TribeTower && pageTribeTower.links == Links(TribeTower)
    ensures fresh(pageInterception) && pageInterception.Valid() && pageInterception.id == Interception && pageInterception.links == Links(Interception)
    ensures fresh(pageSpecialInterception) && pageSpecialInterception.Valid() && pageSpecialInterception.id == SpecialInterception && pageSpecialInterception.links == Links(SpecialInterception)
    ensures fresh(pageSimulationRoom) && pageSimulationRoom.Valid() && pageSimulationRoom.id == SimulationRoom && pageSimulationRoom.links == Links(SimulationRoom)
    ensures fresh(pageArena) && pageArena.Valid() && pageArena.id == Arena && pageArena.links == Links(Arena)
    ensures fresh(pageRookieArena) && pageRookieArena.Valid() && pageRookieArena.id == RookieArena && pageRookieArena.links == Links(RookieArena)
    ensures fresh(pageSpecialArena) && pageSpecialArena.Valid() && pageSpecialArena.id == SpecialArena && pageSpecialArena.links == Links(SpecialArena)
    ensures fresh(pageOutpost) && pageOutpost.Valid() && pageOutpost.id == Outpost && pageOutpost.links == Links(Outpost)
    ensures fresh(pageCommission) && pageCommission.Valid() && pageCommission.id == Commission && pageCommission.links == Links(Commission)
    ensures fresh(pageMailbox) && pageMailbox.Valid() && pageMailbox.id == Mailbox && pageMailbox.links == Links(Mailbox)
    ensures fresh(pageRecruit) && pageRecruit.Valid() && pageRecruit.id == Recruit && pageRecruit.links == Links(Recruit)
    ensures fresh(pageRanking) && pageRanking.Valid() && pageRanking.id == Ranking && pageRanking.links == Links(Ranking)
    ensures fresh(pageEvent) && pageEvent.Valid() && pageEvent.id == Event && pageEvent.links == Links(Event)
    ensures fresh(pageStory1) && pageStory1.Valid() && pageStory1.id == Story1 && pageStory1.links == Links(Story1)
    ensures fresh(pageStory2) && pageStory2.Valid() && pageStory2.id == Story2 && pageStory2.links == Links(Story2)
    ensures pageMain.links == old(pageMain.links)[Daily := MAIN_GOTO_DAILY][Shop := MAIN_GOTO_SHOP][CashShop := MAIN_GOTO_CASH_SHOP][Team := MAIN_GOTO_TEAM][Inventory := MAIN_GOTO_INVENTORY][Pass := MAIN_GOTO_PASS][Ark := MAIN_GOTO_ARK][Outpost := MAIN_GOTO_OUTPOST][Mailbox := MAIN_GOTO_MAILBOX][Recruit := MAIN_GOTO_RECRUIT][Event := MAIN_GOTO_EVENT]
  {
    pageDaily := DeclareDaily(pageMain);
    pageShop, pageCashShop, pageTeam, pageInventory, pagePass, pageConversation, pageArk, pageTribeTower, pageInterception, pageSpecialInterception, pageSimulationRoom, pageArena, pageRookieArena, pageSpecialArena, pageOutpost, pageCommission, pageMailbox, pageRecruit, pageRanking, pageEvent, pageStory1, pageStory2 := RunFromShop(pageMain);
  }

  /** The module-level statements from `page_friend` to the end. */
  method RunFromFriend(pageMain: Page)
    returns (pageFriend: Page, pageDaily: Page, pageShop: Page, pageCashShop: Page, pageTeam: Page, pageInventory: Page, pagePass: Page, pageConversation: Page, pageArk: Page, pageTribeTower: Page, pageInterception: Page, pageSpecialInterception: Page, pageSimulationRoom: Page, pageArena: Page, pageRookieArena: Page, pageSpecialArena: Page, pageOutpost: Page, pageCommission: Page, pageMailbox: Page, pageRecruit: Page, pageRanking: Page, pageEvent: Page, pageStory1: Page, pageStory2: Page)
    requires pageMain.id == Main
    modifies pageMain
    ensures fresh(pageFriend) && pageFriend.Valid() && pageFriend.id == Friend && pageFriend.links == Links(Friend)
    ensures fresh(pageDaily) && pageDaily.Valid() && pageDaily.id == Daily && pageDaily.links == Links(Daily)
    ensures fresh(pageShop) && pageShop.Valid() && pageShop.id == Shop && pageShop.links == Links(Shop)
    ensures fresh(pageCashShop) && pageCashShop.Valid() && pageCashShop.id == CashShop && pageCashShop.links == Links(CashShop)
    ensures fresh(pageTeam) && pageTeam.Valid() && pageTeam.id == Team && pageTeam.links == Links(Team)
    ensures fresh(pageInventory) && pageInventory.Valid() && pageInventory.id == Inventory && pageInventory.links == Links(Inventory)
    ensures fresh(pagePass) && pagePass.Valid() && pagePass.id == Pass && pagePass.links == Links(Pass)
    ensures fresh(pageConversation) && pageConversation.Valid() && pageConversation.id == Conversation && pageConversation.links == Links(Conversation)
    ensures fresh(pageArk) && pageArk.Valid() && pageArk.id == Ark && pageArk.links == Links(Ark)
    ensures fresh(pageTribeTower) && pageTribeTower.Valid() && pageTribeTower.id == TribeTower && pageTribeTower.links == Links(TribeTower)
    ensures fresh(pageInterception) && pageInterception.Valid() && pageInterception.id == Interception && pageInterception.links == Links(Interception)
    ensures fresh(pageSpecialInterception) && pageSpecialInterception.Valid() && pageSpecialInterception.id == SpecialInterception && pageSpecialInterception.links == Links(SpecialInterception)
    ensures fresh(pageSimulationRoom) && pageSimulationRoom.Valid() && pageSimulationRoom.id == SimulationRoom && pageSimulationRoom.links == Links(SimulationRoom)
    ensures fresh(pageArena) && pageArena.Valid() && pageArena.id == Arena && pageArena.links == Links(Arena)
    ensures fresh(pageRookieArena) && pageRookieArena.Valid() && pageRookieArena.id == RookieArena && pageRookieArena.links == Links(RookieArena)
    ensures fresh(pageSpecialArena) && pageSpecialArena.Valid() && pageSpecialArena.id == SpecialArena && pageSpecialArena.links == Links(SpecialArena)
    ensures fresh(pageOutpost) && pageOutpost.Valid() && pageOutpost.id == Outpost && pageOutpost.links == Links(Outpost)
    ensures fresh(pageCommission) && pageCommission.Valid() && pageCommission.id == Commission && pageCommission.links == Links(Commission)
    ensures fresh(pageMailbox) && pageMailbox.Valid() && pageMailbox.id == Mailbox && pageMailbox.links == Links(Mailbox)
    ensures fresh(pageRecruit) && pageRecruit.Valid() && pageRecruit.id == Recruit && pageRecruit.links == Links(Recruit)
    ensures fresh(pageRanking) && pageRanking.Valid() && pageRanking.id == Ranking && pageRanking.links == Links(Ranking)
    ensures fresh(pageEvent) && pageEvent.Valid() && pageEvent.id == Event && pageEvent.links == Links(Event)
    ensures fresh(pageStory1) && pageStory1.Valid() && pageStory1.id == Story1 && pageStory1.links == Links(Story1)
    ensures fresh(pageStory2) && pageStory2.Valid() && pageStory2.id == Story2 && pageStory2.links == Links(Story2)
    ensures pageMain.links == old(pageMain.links)[Friend := MAIN_GOTO_FRIEND][Daily := MAIN_GOTO_DAILY][Shop := MAIN_GOTO_SHOP][CashShop := MAIN_GOTO_CASH_SHOP][Team := MAIN_GOTO_TEAM][Inventory := MAIN_GOTO_INVENTORY][Pass := MAIN_GOTO_PASS][Ark := MAIN_GOTO_ARK][Outpost := MAIN_GOTO_OUTPOST][Mailbox := MAIN_GOTO_MAILBOX][Recruit := MAIN_GOTO_RECRUIT][Event := MAIN_GOTO_EVENT]
  {
    pageFriend := DeclareFriend(pageMain);
    pageDaily, pageShop, pageCashShop, pageTeam, pageInventory, pagePass, pageConversation, pageArk, pageTribeTower, pageInterception, pageSpecialInterception, pageSimulationRoom, pageArena, pageRookieArena, pageSpecialArena, pageOutpost, pageCommission, pageMailbox, pageRecruit, pageRanking, pageEvent, pageStory1, pageStory2 := RunFromDaily(pageMain);
  }

  /** The module-level statements from `page_destroy` to the end. */
  method RunFromDestroy(pageReward: Page, pageMain: Page)
    returns (pageDestroy: Page, pageFriend: Page, pageDaily: Page, pageShop: Page, pageCashShop: Page, pageTeam: Page, pageInventory: Page, pagePass: Page, pageConversation: Page, pageArk: Page, pageTribeTower: Page, pageInterception: Page, pageSpecialInterception: Page, pageSimulationRoom: Page, pageArena: Page, pageRookieArena: Page, pageSpecialArena: Page, pageOutpost: Page, pageCommission: Page, pageMailbox: Page, pageRecruit: Page, pageRanking: Page, pageEvent: Page, pageStory1: Page, pageStory2: Page)
    requires pageReward.id == Reward
    requires pageMain.id == Main
    modifies pageReward, pageMain
    ensures fresh(pageDestroy) && pageDestroy.Valid() && pageDestroy.id == Destroy && pageDestroy.links == Links(Destroy)
    ensures fresh(pageFriend) && pageFriend.Valid() && pageFriend.id == Friend && pageFriend.links == Links(Friend)
    ensures fresh(pageDaily) && pageDaily.Valid() && pageDaily.id == Daily && pageDaily.links == Links(Daily)
    ensures fresh(pageShop) && pageShop.Valid() && pageShop.id == Shop && pageShop.links == Links(Shop)
    ensures fresh(pageCashShop) && pageCashShop.Valid() && pageCashShop.id == CashShop && pageCashShop.links == Links(CashShop)
    ensures fresh(pageTeam) && pageTeam.Valid() && pageTeam.id == Team && pageTeam.links == Links(Team)
    ensures fresh(pageInventory) && pageInventory.Valid() && pageInventory.id == Inventory && pageInventory.links == Links(Inventory)
    ensures fresh(pagePass) && pagePass.Valid() && pagePass.id == Pass && pagePass.links == Links(Pass)
    ensures fresh(pageConversation) && pageConversation.Valid() && pageConversation.id == Conversation && pageConversation.links == Links(Conversation)
    ensures fresh(pageArk) && pageArk.Valid() && pageArk.id == Ark && pageArk.links == Links(Ark)
    ensures fresh(pageTribeTower) && pageTribeTower.Valid() && pageTribeTower.id == TribeTower && pageTribeTower.links == Links(TribeTower)
    ensures fresh(pageInterception) && pageInterception.Valid() && pageInterception.id == Interception && pageInterception.links == Links(Interception)
    ensures fresh(pageSpecialInterception) && pageSpecialInterception.Valid() && pageSpecialInterception.id == SpecialInterception && pageSpecialInterception.links == Links(SpecialInterception)
    ensures fresh(pageSimulationRoom) && pageSimulationRoom.Valid() && pageSimulationRoom.id == SimulationRoom && pageSimulationRoom.links == Links(SimulationRoom)
    ensures fresh(pageArena) && pageArena.Valid() && pageArena.id == Arena && pageArena.links == Links(Arena)
    ensures fresh(pageRookieArena) && pageRookieArena.Valid() && pageRookieArena.id == RookieArena && pageRookieArena.links == Links(RookieArena)
    ensures fresh(pageSpecialArena) && pageSpecialArena.Valid() && pageSpecialArena.id == SpecialArena && pageSpecialArena.links == Links(SpecialArena)
    ensures fresh(pageOutpost) && pageOutpost.Valid() && pageOutpost.id == Outpost && pageOutpost.links == Links(Outpost)
    ensures fresh(pageCommission) && pageCommission.Valid() && pageCommission.id == Commission && pageCommission.links == Links(Commission)
    ensures fresh(pageMailbox) && pageMailbox.Valid() && pageMailbox.id == Mailbox && pageMailbox.links == Links(Mailbox)
    ensures fresh(pageRecruit) && pageRecruit.Valid() && pageRecruit.id == Recruit && pageRecruit.links == Links(Recruit)
    ensures fresh(pageRanking) && pageRanking.Valid() && pageRanking.id == Ranking && pageRanking.links == Links(Ranking)
    ensures fresh(pageEvent) && pageEvent.Valid() && pageEvent.id == Event && pageEvent.links == Links(Event)
    ensures fresh(pageStory1) && pageStory1.Valid() && pageStory1.id == Story1 && pageStory1.links == Links(Story1)
    ensures fresh(pageStory2) && pageStory2.Valid() && pageStory2.id == Story2 && pageStory2.links == Links(Story2)
    ensures pageReward.links == old(pageReward.links)[Destroy := REWARD_GOTO_DESTROY]
    ensures pageMain.links == old(pageMain.links)[Friend := MAIN_GOTO_FRIEND][Daily := MAIN_GOTO_DAILY][Shop := MAIN_GOTO_SHOP][CashShop := MAIN_GOTO_CASH_SHOP][Team := MAIN_GOTO_TEAM][Inventory := MAIN_GOTO_INVENTORY][Pass := MAIN_GOTO_PASS][Ark := MAIN_GOTO_ARK][Outpost := MAIN_GOTO_OUTPOST][Mailbox := MAIN_GOTO_MAILBOX][Recruit := MAIN_GOTO_RECRUIT][Event := MAIN_GOTO_EVENT]
  {
    pageDestroy := DeclareDestroy(pageReward);
    pageFriend, pageDaily, pageShop, pageCashShop, pageTeam, pageInventory, pagePass, pageConversation, pageArk, pageTribeTower, pageInterception, pageSpecialInterception, pageSimulationRoom, pageArena, pageRookieArena, pageSpecialArena, pageOutpost, pageCommission, pageMailbox, pageRecruit, pageRanking, pageEvent, pageStory1, pageStory2 := RunFromFriend(pageMain);
  }

  /** The module-level statements from `page_reward` to the end. */
  method RunFromReward(pageMain: Page)
    returns (pageReward: Page, pageDestroy: Page, pageFriend: Page, pageDaily: Page, pageShop: Page, pageCashShop: Page, pageTeam: Page, pageInventory: Page, pagePass: Page, pageConversation: Page, pageArk: Page, pageTribeTower: Page, pageInterception: Page, pageSpecialInterception: Page, pageSimulationRoom: Page, pageArena: Page, pageRookieArena: Page, pageSpecialArena: Page, pageOutpost: Page, pageCommission: Page, pageMailbox: Page, pageRecruit: Page, pageRanking: Page, pageEvent: Page, pageStory1: Page, pageStory2: Page)
    requires pageMain.id == Main
    modifies pageMain
    ensures fresh(pageReward) && pageReward.Valid() && pageReward.id == Reward && pageReward.links == Links(Reward)
    ensures fresh(pageDestroy) && pageDestroy.Valid() && pageDestroy.id == Destroy && pageDestroy.links == Links(Destroy)
    ensures fresh(pageFriend) && pageFriend.Valid() && pageFriend.id == Friend && pageFriend.links == Links(Friend)
    ensures fresh(pageDaily) && pageDaily.Valid() && pageDaily.id == Daily && pageDaily.links == Links(Daily)
    ensures fresh(pageShop) && pageShop.Valid() && pageShop.id == Shop && pageShop.links == Links(Shop)
    ensures fresh(pageCashShop) && pageCashShop.Valid() && pageCashShop.id == CashShop && pageCashShop.links == Links(CashShop)
    ensures fresh(pageTeam) && pageTeam.Valid() && pageTeam.id == Team && pageTeam.links == Links(Team)
    ensures fresh(pageInventory) && pageInventory.Valid() && pageInventory.id == Inventory && pageInventory.links == Links(Inventory)
    ensures fresh(pagePass) && pagePass.Valid() && pagePass.id == Pass && pagePass.links == Links(Pass)
    ensures fresh(pageConversation) && pageConversation.Valid() && pageConversation.id == Conversation && pageConversation.links == Links(Conversation)
    ensures fresh(pageArk) && pageArk.Valid() && pageArk.id == Ark && pageArk.links == Links(Ark)
    ensures fresh(pageTribeTower) && pageTribeTower.Valid() && pageTribeTower.id == TribeTower && pageTribeTower.links == Links(TribeTower)
    ensures fresh(pageInterception) && pageInterception.Valid() && pageInterception.id == Interception && pageInterception.links == Links(Interception)
    ensures fresh(pageSpecialInterception) && pageSpecialInterception.Valid() && pageSpecialInterception.id == SpecialInterception && pageSpecialInterception.links == Links(SpecialInterception)
    ensures fresh(pageSimulationRoom) && pageSimulationRoom.Valid() && pageSimulationRoom.id == SimulationRoom && pageSimulationRoom.links == Links(SimulationRoom)
    ensures fresh(pageArena) && pageArena.Valid() && pageArena.id == Arena && pageArena.links == Links(Arena)
    ensures fresh(pageRookieArena) && pageRookieArena.Valid() && pageRookieArena.id == RookieArena && pageRookieArena.links == Links(RookieArena)
    ensures fresh(pageSpecialArena) && pageSpecialArena.Valid() && pageSpecialArena.id == SpecialArena && pageSpecialArena.links == Links(SpecialArena)
    ensures fresh(pageOutpost) && pageOutpost.Valid() && pageOutpost.id == Outpost && pageOutpost.links == Links(Outpost)
    ensures fresh(pageCommission) && pageCommission.Valid() && pageCommission.id == Commission && pageCommission.links == Links(Commission)
    ensures fresh(pageMailbox) && pageMailbox.Valid() && pageMailbox.id == Mailbox && pageMailbox.links == Links(Mailbox)
    ensures fresh(pageRecruit) && pageRecruit.Valid() && pageRecruit.id == Recruit && pageRecruit.links == Links(Recruit)
    ensures fresh(pageRanking) && pageRanking.Valid() && pageRanking.id == Ranking && pageRanking.links == Links(Ranking)
    ensures fresh(pageEvent) && pageEvent.Valid() && pageEvent.id == Event && pageEvent.links == Links(Event)
    ensures fresh(pageStory1) && pageStory1.Valid() && pageStory1.id == Story1 && pageStory1.links == Links(Story1)
    ensures fresh(pageStory2) && pageStory2.Valid() && pageStory2.id == Story2 && pageStory2.links == Links(Story2)
    ensures pageMain.links == old(pageMain.links)[Reward := MAIN_GOTO_REWARD][Friend := MAIN_GOTO_FRIEND][Daily := MAIN_GOTO_DAILY][Shop := MAIN_GOTO_SHOP][CashShop := MAIN_GOTO_CASH_SHOP][Team := MAIN_GOTO_TEAM][Inventory := MAIN_GOTO_INVENTORY][Pass := MAIN_GOTO_PASS][Ark := MAIN_GOTO_ARK][Outpost := MAIN_GOTO_OUTPOST][Mailbox := MAIN_GOTO_MAILBOX][Recruit := MAIN_GOTO_RECRUIT][Event := MAIN_GOTO_EVENT]
  {
    pageReward := DeclareReward(pageMain);
    pageDestroy, pageFriend, pageDaily, pageShop, pageCashShop, pageTeam, pageInventory, pagePass, pageConversation, pageArk, pageTribeTower, pageInterception, pageSpecialInterception, pageSimulationRoom, pageArena, pageRookieArena, pageSpecialArena, pageOutpost, pageCommission, pageMailbox, pageRecruit, pageRanking, pageEvent, pageStory1, pageStory2 := RunFromDestroy(pageReward, pageMain);
  }

  /** The module-level statements from `page_unknown` to the end. */
  method RunFromUnknown(pageMain: Page)
    returns (pageUnknown: Page, pageReward: Page, pageDestroy: Page, pageFriend: Page, pageDaily: Page, pageShop: Page, pageCashShop: Page, pageTeam: Page, pageInventory: Page, pagePass: Page, pageConversation: Page, pageArk: Page, pageTribeTower: Page, pageInterception: Page, pageSpecialInterception: Page, pageSimulationRoom: Page, pageArena: Page, pageRookieArena: Page, pageSpecialArena: Page, pageOutpost: Page, pageCommission: Page, pageMailbox: Page, pageRecruit: Page, pageRanking: Page, pageEvent: Page, pageStory1: Page, pageStory2: Page)
    requires pageMain.id == Main
    modifies pageMain
    ensures fresh(pageUnknown) && pageUnknown.Valid() && pageUnknown.id == Unknown && pageUnknown.links == Links(Unknown)
    ensures fresh(pageReward) && pageReward.Valid() && pageReward.id == Reward && pageReward.links == Links(Reward)
    ensures fresh(pageDestroy) && pageDestroy.Valid() && pageDestroy.id == Destroy && pageDestroy.links == Links(Destroy)
    ensures fresh(pageFriend) && pageFriend.Valid() && pageFriend.id == Friend && pageFriend.links == Links(Friend)
    ensures fresh(pageDaily) && pageDaily.Valid() && pageDaily.id == Daily && pageDaily.links == Links(Daily)
    ensures fresh(pageShop) && pageShop.Valid() && pageShop.id == Shop && pageShop.links == Links(Shop)
    ensures fresh(pageCashShop) && pageCashShop.Valid() && pageCashShop.id == CashShop && pageCashShop.links == Links(CashShop)
    ensures fresh(pageTeam) && pageTeam.Valid() && pageTeam.id == Team && pageTeam.links == Links(Team)
    ensures fresh(pageInventory) && pageInventory.Valid() && pageInventory.id == Inventory && pageInventory.links == Links(Inventory)
    ensures fresh(pagePass) && pagePass.Valid() && pagePass.id == Pass && pagePass.links == Links(Pass)
    ensures fresh(pageConversation) && pageConversation.Valid() && pageConversation.id == Conversation && pageConversation.links == Links(Conversation)
    ensures fresh(pageArk) && pageArk.Valid() && pageArk.id == Ark && pageArk.links == Links(Ark)
    ensures fresh(pageTribeTower) && pageTribeTower.Valid() && pageTribeTower.id == TribeTower && pageTribeTower.links == Links(TribeTower)
    ensures fresh(pageInterception) && pageInterception.Valid() && pageInterception.id == Interception && pageInterception.links == Links(Interception)
    ensures fresh(pageSpecialInterception) && pageSpecialInterception.Valid() && pageSpecialInterception.id == SpecialInterception && pageSpecialInterception.links == Links(SpecialInterception)
    ensures fresh(pageSimulationRoom) && pageSimulationRoom.Valid() && pageSimulationRoom.id == SimulationRoom && pageSimulationRoom.links == Links(SimulationRoom)
    ensures fresh(pageArena) && pageArena.Valid() && pageArena.id == Arena && pageArena.links == Links(Arena)
    ensures fresh(pageRookieArena) && pageRookieArena.Valid() && pageRookieArena.id == RookieArena && pageRookieArena.links == Links(RookieArena)
    ensures fresh(pageSpecialArena) && pageSpecialArena.Valid() && pageSpecialArena.id == SpecialArena && pageSpecialArena.links == Links(SpecialArena)
    ensures fresh(pageOutpost) && pageOutpost.Valid() && pageOutpost.id == Outpost && pageOutpost.links == Links(Outpost)
    ensures fresh(pageCommission) && pageCommission.Valid() && pageCommission.id == Commission && pageCommission.links == Links(Commission)
    ensures fresh(pageMailbox) && pageMailbox.Valid() && pageMailbox.id == Mailbox && pageMailbox.links == Links(Mailbox)
    ensures fresh(pageRecruit) && pageRecruit.Valid() && pageRecruit.id == Recruit && pageRecruit.links == Links(Recruit)
    ensures fresh(pageRanking) && pageRanking.Valid() && pageRanking.id == Ranking && pageRanking.links == Links(Ranking)
    ensures fresh(pageEvent) && pageEvent.Valid() && pageEvent.id == Event && pageEvent.links == Links(Event)
    ensures fresh(pageStory1) && pageStory1.Valid() && pageStory1.id == Story1 && pageStory1.links == Links(Story1)
    ensures fresh(pageStory2) && pageStory2.Valid() && pageStory2.id == Story2 && pageStory2.links == Links(Story2)
    ensures pageMain.links == old(pageMain.links)[Reward := MAIN_GOTO_REWARD][Friend := MAIN_GOTO_FRIEND][Daily := MAIN_GOTO_DAILY][Shop := MAIN_GOTO_SHOP][CashShop := MAIN_GOTO_CASH_SHOP][Team := MAIN_GOTO_TEAM][Inventory := MAIN_GOTO_INVENTORY][Pass := MAIN_GOTO_PASS][Ark := MAIN_GOTO_ARK][Outpost := MAIN_GOTO_OUTPOST][Mailbox := MAIN_GOTO_MAILBOX][Recruit := MAIN_GOTO_RECRUIT][Event := MAIN_GOTO_EVENT]
  {
    pageUnknown := DeclareUnknown(pageMain);
    pageReward, pageDestroy, pageFriend, pageDaily, pageShop, pageCashShop, pageTeam, pageInventory, pagePass, pageConversation, pageArk, pageTribeTower, pageInterception, pageSpecialInterception, pageSimulationRoom, pageArena, pageRookieArena, pageSpecialArena, pageOutpost, pageCommission, pageMailbox, pageRecruit, pageRanking, pageEvent, pageStory1, pageStory2 := RunFromReward(pageMain);
  }

  /** The whole module-level construction, lines 28-179: every page, with
      the check button it is constructed with and its final `links`. */
  method BuildGraph()
    returns (pageMain: Page, pageUnknown: Page, pageReward: Page, pageDestroy: Page, pageFriend: Page, pageDaily: Page, pageShop: Page, pageCashShop: Page, pageTeam: Page, pageInventory: Page, pagePass: Page, pageConversation: Page, pageArk: Page, pageTribeTower: Page, pageInterception: Page, pageSpecialInterception: Page, pageSimulationRoom: Page, pageArena: Page, pageRookieArena: Page, pageSpecialArena: Page, pageOutpost: Page, pageCommission: Page, pageMailbox: Page, pageRecruit: Page, pageRanking: Page, pageEvent: Page, pageStory1: Page, pageStory2: Page)
    ensures fresh(pageMain) && pageMain.Valid() && pageMain.id == Main && pageMain.links == Links(Main)
    ensures fresh(pageUnknown) && pageUnknown.Valid() && pageUnknown.id == Unknown && pageUnknown.links == Links(Unknown)
    ensures fresh(pageReward) && pageReward.Valid() && pageReward.id == Reward && pageReward.links == Links(Reward)
    ensures fresh(pageDestroy) && pageDestroy.Valid() && pageDestroy.id == Destroy && pageDestroy.links == Links(Destroy)
    ensures fresh(pageFriend) && pageFriend.Valid() && pageFriend.id == Friend && pageFriend.links == Links(Friend)
    ensures fresh(pageDaily) && pageDaily.Valid() && pageDaily.id == Daily && pageDaily.links == Links(Daily)
    ensures fresh(pageShop) && pageShop.Valid() && pageShop.id == Shop && pageShop.links == Links(Shop)
    ensures fresh(pageCashShop) && pageCashShop.Valid() && pageCashShop.id == CashShop && pageCashShop.links == Links(CashShop)
    ensures fresh(pageTeam) && pageTeam.Valid() && pageTeam.id == Team && pageTeam.links == Links(Team)
    ensures fresh(pageInventory) && pageInventory.Valid() && pageInventory.id == Inventory && pageInventory.links == Links(Inventory)
    ensures fresh(pagePass) && pagePass.Valid() && pagePass.id == Pass && pagePass.links == Links(Pass)
    ensures fresh(pageConversation) && pageConversation.Valid() && pageConversation.id == Conversation && pageConversation.links == Links(Conversation)
    ensures fresh(pageArk) && pageArk.Valid() && pageArk.id == Ark && pageArk.links == Links(Ark)
    ensures fresh(pageTribeTower) && pageTribeTower.Valid() && pageTribeTower.id == TribeTower && pageTribeTower.links == Links(TribeTower)
    ensures fresh(pageInterception) && pageInterception.Valid() && pageInterception.id == Interception && pageInterception.links == Links(Interception)
    ensures fresh(pageSpecialInterception) && pageSpecialInterception.Valid() && pageSpecialInterception.id == SpecialInterception && pageSpecialInterception.links == Links(SpecialInterception)
    ensures fresh(pageSimulationRoom) && pageSimulationRoom.Valid() && pageSimulationRoom.id == SimulationRoom && pageSimulationRoom.links == Links(SimulationRoom)
    ensures fresh(pageArena) && pageArena.Valid() && pageArena.id == Arena && pageArena.links == Links(Arena)
    ensures fresh(pageRookieArena) && pageRookieArena.Valid() && pageRookieArena.id == RookieArena && pageRookieArena.links == Links(RookieArena)
    ensures fresh(pageSpecialArena) && pageSpecialArena.Valid() && pageSpecialArena.id == SpecialArena && pageSpecialArena.links == Links(SpecialArena)
    ensures fresh(pageOutpost) && pageOutpost.Valid() && pageOutpost.id == Outpost && pageOutpost.links == Links(Outpost)
    ensures fresh(pageCommission) && pageCommission.Valid() && pageCommission.id == Commission && pageCommission.links == Links(Commission)
    ensures fresh(pageMailbox) && pageMailbox.Valid() && pageMailbox.id == Mailbox && pageMailbox.links == Links(Mailbox)
    ensures fresh(pageRecruit) && pageRecruit.Valid() && pageRecruit.id == Recruit && pageRecruit.links == Links(Recruit)
    ensures fresh(pageRanking) && pageRanking.Valid() && pageRanking.id == Ranking && pageRanking.links == Links(Ranking)
    ensures fresh(pageEvent) && pageEvent.Valid() && pageEvent.id == Event && pageEvent.links == Links(Event)
    ensures fresh(pageStory1) && pageStory1.Valid() && pageStory1.id == Story1 && pageStory1.links == Links(Story1)
    ensures fresh(pageStory2) && pageStory2.Valid() && pageStory2.id == Story2 && pageStory2.links == Links(Story2)
  {
    pageMain := DeclareMain();
    pageUnknown, pageReward, pageDestroy, pageFriend, pageDaily, pageShop, pageCashShop, pageTeam, pageInventory, pagePass, pageConversation, pageArk, pageTribeTower, pageInterception, pageSpecialInterception, pageSimulationRoom, pageArena, pageRookieArena, pageSpecialArena, pageOutpost, pageCommission, pageMailbox, pageRecruit, pageRanking, pageEvent, pageStory1, pageStory2 := RunFromUnknown(pageMain);
  }

}
