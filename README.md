# NIKKEAutoScript core, modelled in Dafny

NIKKEAutoScript plays the game NIKKE on the user's behalf. It takes screenshots and recognises buttons and text on them. It moves between game screens ("pages") by clicking link buttons, and it runs daily tasks: the arenas, co-op stages and the simulation room. This project models the decision logic of seven parts of it.

- **Page graph** (`pages.dfy`, `routes.dfy`): the 28 pages of `module/ui/page.py`.
  - A `Page` class with a `links` map that the module-level `link` calls fill in.
  - Each page's name is derived from its constructing line.
  - Equality and hashing go by name.
  - Reachability and shortest-route facts are proved over the finished graph.
- **Special arena** (`selection.dfy`, `arena_loop.dfy`, `special_arena.dfy`):
  - the opponent selector: min-max normalisation, Ranking inversion, a weighted score, a stable descending sort, and the Max / Min / Middle pick;
  - the `start_competition` loop, with its `already_start` latch and prioritised rules;
  - the entry loop and `run`.
- **Rookie arena** (`rookie_arena.dfy`): the same loops on the rookie arena's slot buttons. Its selection is an input.
- **Co-op** (`coop.dfy`): the two entry loops and the stage loop of `module/coop/coop.py`.
- **Simulation room effects** (`effects.dfy`): `build_effect_struct` and `adjust_position`.
- **Event asset extractor** (`asset_extract.dfy`), from `dev_tools/event_button_extract.py`:
  - file naming and `splitext`;
  - classification of files into Button and Template entries;
  - the `.png`/`.gif` probe order and the AREA/COLOR/BUTTON overrides;
  - the generated `assets.py` lines.
- **Blablalink daily sign-in** (`blablalink.dfy`): `check_daily_status` over a JSON value, the sample sizes of liked and opened posts, and `run`'s sign-in decision and next run time.

Shared helpers live in `wrappers.dfy` (Option, Result), `text.dfy` (Python's `strip`, `find`, `startswith`, `in`) and `geometry.dfy` (points and areas).

Perception is an input, not computed: recognising a button, reading text and matching a template become values in a per-pass `Frame` record. So are timers: each `Timer.reached()` is a boolean in that record, and a reset is an event the step reports. A `while 1` loop is a method that consumes a finite sequence of frames, one per pass. It reports the steps it took and how it ended, or that it is still running when the frames run out. Each such method is proved equal to a recursive specification function, and the properties are lemmas about that function.

Two details of the code that the model keeps as written:
- `Middle` picks `sorted[len // 2]` (`module/special_arena/special_arena.py:143-144`).
- In `Blablalink.run`, the early `return`s on lines 323 and 329 are inside the `try`. After 08:00, a run that cannot fetch its tasks or does not find the daily task therefore never reaches `task_delay`, and the model's `delay` is `None` there.

## Model

| member | source | states |
|---|---|---|
| Pages.DeriveName | module/ui/page.py:13 | The derived page name never contains `=` and is never longer than the constructing line |
| Pages.NameOfAssignment | module/ui/page.py:13 | For a line `lhs = rhs` whose left side is trimmed and has no `=`, the derived name is exactly `lhs` |
| Pages.LineGivesName | module/ui/page.py:12-13 | Every page takes its own module variable name (`page_main`, ...) from its constructing line |
| Pages.NamesDistinct | module/ui/page.py:28-179 | No two constructing statements give the same name |
| Pages.Page.constructor | module/ui/page.py:9-13 | The new page belongs to its statement, gets that statement's name and check button, and starts with an empty `links` |
| Pages.Page.Link | module/ui/page.py:24-25 | `links[destination] = button`: the entry for the destination is set or replaced, and every other entry stays the same |
| Pages.SameNameSamePage | module/ui/page.py:15-19 | Two pages are equal exactly when they come from the same statement, and exactly when their hash keys agree, so keying `links` by statement is keying it by page |
| Pages.DeclareMain | module/ui/page.py:29 | A fresh, valid `page_main` (named by its statement, with the check button it passes) and no links yet |
| Pages.DeclareUnknown | module/ui/page.py:32-33 | A fresh, valid `page_unknown` (named by its statement, with the check button it passes) whose `links` are exactly {Main → GOTO_MAIN} |
| Pages.DeclareReward | module/ui/page.py:36-38 | A fresh, valid `page_reward` (named by its statement, with the check button it passes) whose `links` are exactly {Main → REWARD_GOTO_MAIN}; the earlier page `pageMain` gains only the entry Reward → MAIN_GOTO_REWARD |
| Pages.DeclareDestroy | module/ui/page.py:41-43 | A fresh, valid `page_destroy` (named by its statement, with the check button it passes) whose `links` are exactly {Reward → DESTROY_GOTO_REWARD}; the earlier page `pageReward` gains only the entry Destroy → REWARD_GOTO_DESTROY |
| Pages.DeclareFriend | module/ui/page.py:46-48 | A fresh, valid `page_friend` (named by its statement, with the check button it passes) whose `links` are exactly {Main → FRIEND_GOTO_MAIN}; the earlier page `pageMain` gains only the entry Friend → MAIN_GOTO_FRIEND |
| Pages.DeclareDaily | module/ui/page.py:51-53 | A fresh, valid `page_daily` (named by its statement, with the check button it passes) whose `links` are exactly {Main → DAILY_GOTO_MAIN}; the earlier page `pageMain` gains only the entry Daily → MAIN_GOTO_DAILY |
| Pages.DeclareShop | module/ui/page.py:56-59 | A fresh, valid `page_shop` (named by its statement, with the check button it passes) whose `links` are exactly {Main → GOTO_BACK}; the earlier page `pageMain` gains only the entry Shop → MAIN_GOTO_SHOP |
| Pages.DeclareCashShop | module/ui/page.py:62-65 | A fresh, valid `page_cash_shop` (named by its statement, with the check button it passes) whose `links` are exactly {Main → GOTO_BACK}; the earlier page `pageMain` gains only the entry CashShop → MAIN_GOTO_CASH_SHOP |
| Pages.DeclareTeam | module/ui/page.py:68-70 | A fresh, valid `page_team` (named by its statement, with the check button it passes) whose `links` are exactly {Main → TEAM_GOTO_MAIN}; the earlier page `pageMain` gains only the entry Team → MAIN_GOTO_TEAM |
| Pages.DeclareInventory | module/ui/page.py:73-75 | A fresh, valid `page_inventory` (named by its statement, with the check button it passes) whose `links` are exactly {Main → TEAM_GOTO_MAIN}; the earlier page `pageMain` gains only the entry Inventory → MAIN_GOTO_INVENTORY |
| Pages.DeclarePass | module/ui/page.py:78-80 | A fresh, valid `page_pass` (named by its statement, with the check button it passes) whose `links` are exactly {Main → PASS_GOTO_MAIN}; the earlier page `pageMain` gains only the entry Pass → MAIN_GOTO_PASS |
| Pages.DeclareConversation | module/ui/page.py:83-86 | A fresh, valid `page_conversation` (named by its statement, with the check button it passes) whose `links` are exactly {Team → GOTO_BACK, Main → GOTO_MAIN}; the earlier page `pageTeam` gains only the entry Conversation → TEAM_GOTO_CONVERSATION |
| Pages.DeclareArk | module/ui/page.py:89-92 | A fresh, valid `page_ark` (named by its statement, with the check button it passes) whose `links` are exactly {Main → GOTO_BACK}; the earlier page `pageMain` gains only the entry Ark → MAIN_GOTO_ARK |
| Pages.DeclareTribeTower | module/ui/page.py:95-98 | A fresh, valid `page_tribe_tower` (named by its statement, with the check button it passes) whose `links` are exactly {Ark → GOTO_BACK, Main → GOTO_MAIN}; the earlier page `pageArk` gains only the entry TribeTower → ARK_GOTO_TRIBE_TOWER |
| Pages.DeclareInterception | module/ui/page.py:101-104 | A fresh, valid `page_interception` (named by its statement, with the check button it passes) whose `links` are exactly {Ark → GOTO_BACK, Main → GOTO_MAIN}; the earlier page `pageArk` gains only the entry Interception → ARK_GOTO_INTERCEPTION |
| Pages.DeclareSpecialInterception | module/ui/page.py:107-109 | A fresh, valid `page_special_interception` (named by its statement, with the check button it passes) whose `links` are exactly {Interception → GOTO_BACK, Main → GOTO_MAIN} |
| Pages.DeclareSimulationRoom | module/ui/page.py:113-116 | A fresh, valid `page_simulation_room` (named by its statement, with the check button it passes) whose `links` are exactly {Ark → GOTO_BACK, Main → GOTO_MAIN}; the earlier page `pageArk` gains only the entry SimulationRoom → ARK_GOTO_SIMULATION_ROOM |
| Pages.DeclareArena | module/ui/page.py:119-122 | A fresh, valid `page_arena` (named by its statement, with the check button it passes) whose `links` are exactly {Ark → GOTO_BACK, Main → GOTO_MAIN}; the earlier page `pageArk` gains only the entry Arena → ARK_GOTO_ARENA |
| Pages.DeclareRookieArena | module/ui/page.py:125-128 | A fresh, valid `page_rookie_arena` (named by its statement, with the check button it passes) whose `links` are exactly {Arena → GOTO_BACK, Main → GOTO_MAIN}; the earlier page `pageArena` gains only the entry RookieArena → ARENA_GOTO_ROOKIE_ARENA |
| Pages.DeclareSpecialArena | module/ui/page.py:131-134 | A fresh, valid `page_special_arena` (named by its statement, with the check button it passes) whose `links` are exactly {Arena → GOTO_BACK, Main → GOTO_MAIN}; the earlier page `pageArena` gains only the entry SpecialArena → ARENA_GOTO_SPECIAL_ARENA |
| Pages.DeclareOutpost | module/ui/page.py:137-140 | A fresh, valid `page_outpost` (named by its statement, with the check button it passes) whose `links` are exactly {Main → GOTO_BACK}; the earlier page `pageMain` gains only the entry Outpost → MAIN_GOTO_OUTPOST |
| Pages.DeclareCommission | module/ui/page.py:143-146 | A fresh, valid `page_commission` (named by its statement, with the check button it passes) whose `links` are exactly {Outpost → COMMISSION_GOTO_OUTPOST}; the earlier page `pageOutpost` gains only the entry Commission → OUTPOST_GOTO_COMMISSION |
| Pages.DeclareMailbox | module/ui/page.py:149-151 | A fresh, valid `page_mailbox` (named by its statement, with the check button it passes) whose `links` are exactly {Main → MAILBOX_GOTO_MAIN}; the earlier page `pageMain` gains only the entry Mailbox → MAIN_GOTO_MAILBOX |
| Pages.DeclareRecruit | module/ui/page.py:154-156 | A fresh, valid `page_recruit` (named by its statement, with the check button it passes) whose `links` are exactly {Main → TEAM_GOTO_MAIN}; the earlier page `pageMain` gains only the entry Recruit → MAIN_GOTO_RECRUIT |
| Pages.DeclareRanking | module/ui/page.py:159-162 | A fresh, valid `page_ranking` (named by its statement, with the check button it passes) whose `links` are exactly {Ark → GOTO_BACK, Main → GOTO_MAIN}; the earlier page `pageArk` gains only the entry Ranking → ARK_GOTO_RANKING |
| Pages.DeclareEvent | module/ui/page.py:167-169 | A fresh, valid `page_event` (named by its statement, with the check button it passes) whose `links` are exactly {Main → GOTO_BACK}; the earlier page `pageMain` gains only the entry Event → MAIN_GOTO_EVENT |
| Pages.DeclareStory1 | module/ui/page.py:171-174 | A fresh, valid `page_story_1` (named by its statement, with the check button it passes) whose `links` are exactly {Event → GOTO_BACK, Main → GOTO_MAIN}; the earlier page `pageEvent` gains only the entry Story1 → EVENT_GOTO_STORY_1 |
| Pages.DeclareStory2 | module/ui/page.py:176-179 | A fresh, valid `page_story_2` (named by its statement, with the check button it passes) whose `links` are exactly {Event → GOTO_BACK, Main → GOTO_MAIN}; the earlier page `pageEvent` gains only the entry Story2 → EVENT_GOTO_STORY_2 |
| Pages.BuildGraph | module/ui/page.py:28-179 | All 28 pages are created, each valid and from its own statement, and each ends with exactly the `links` the whole sequence of `link` calls gives it |
| Routes.ArenaLinks | module/ui/page.py:89-134 | Only `page_arena` links to the rookie and special arenas; `page_main` links to `page_ark`, the ark to the arena, and `page_main` has no direct link to the arena |
| Routes.MainToArena | module/ui/page.py:89-122 | `page_main` → `page_ark` → `page_arena`, by MAIN_GOTO_ARK then ARK_GOTO_ARENA, is a shortest route: two clicks and no fewer |
| Routes.ThroughArena | module/ui/page.py:119-134 | A page that only the arena links to is three clicks from `page_main`, and no route is shorter |
| Routes.MainToArenaModes | module/ui/page.py:119-134 | The rookie and special arenas are each three clicks from `page_main` (ark, arena, then the mode's button), and no route is shorter |
| Routes.LinksToMain | module/ui/page.py:28-179 | Every page other than main, destroy and commission links directly to `page_main` |
| Routes.RouteToMain | module/ui/page.py:28-179 | Each page has a route to `page_main` that follows links: one click from most pages, two from `page_destroy` and `page_commission`, none from main |
| Routes.RouteToMainIsShortest | module/ui/page.py:28-179 | That route is a shortest one: `page_main` is at most two clicks from anywhere, and the two-click pages cannot do it in one |
| Routes.NoWayIn | module/ui/page.py:107-110 | `page_special_interception` has outgoing links but no route from any other page leads into it (the link on line 110 is commented out); no route from another page reaches `page_unknown` either |
| Routes.UnknownLeadsToMain | module/ui/page.py:32-33 | `page_unknown` has no check button and exactly one link, GOTO_MAIN to `page_main` |
| Routes.RouteFromMain | module/ui/page.py:28-179 | A route from `page_main`, of at most three clicks, exists for every page except `page_unknown` and `page_special_interception` |
| Routes.RouteFromMainFollowsLinks | module/ui/page.py:28-179 | Every route `RouteFromMain` gives follows links from `page_main` to its page |
| Routes.ReachableFromMain | module/ui/page.py:28-179 | A page can be reached from `page_main` if and only if it is neither `page_unknown` nor `page_special_interception` |
| Selection.OpponentsData | module/special_arena/special_arena.py:96-111 | Three opponents, top to bottom, with id k and Ranking k for the k-th card, carrying the OCR readings of that card |
| Selection.OpponentsDataOrdered | module/special_arena/special_arena.py:99-101 | The opponent ids strictly increase along the list |
| Selection.Min | module/special_arena/special_arena.py:148 | `min(values)` is one of the values and no value is below it |
| Selection.Max | module/special_arena/special_arena.py:149 | `max(values)` is one of the values and no value is above it |
| Selection.Normalize | module/special_arena/special_arena.py:146-152 | `_normalize` keeps the length, every output lies in [0, 1], and every output is 0.5 when all inputs are equal |
| Selection.NormalizeExtremes | module/special_arena/special_arena.py:152 | Unless all values are equal, an output is 0 exactly for the minimum and 1 exactly for the maximum |
| Selection.NormalizeMonotone | module/special_arena/special_arena.py:152 | `_normalize` keeps the order of the values, and strict order strictly |
| Selection.Scale | module/special_arena/special_arena.py:152 | `(v - min) / (max - min)` lies in [0, 1], and is 0 only for the minimum and 1 only for the maximum |
| Selection.ScaleMonotone | module/special_arena/special_arena.py:152 | Scaling is monotone, and strictly monotone |
| Selection.NormalizeConstant | module/special_arena/special_arena.py:150-151 | Every output is 0.5 if and only if all inputs are equal |
| Selection.NormalizeAll | module/special_arena/special_arena.py:119-127 | Each of the four normalised dimensions has one entry per opponent, and the inverted Ranking stays in [0, 1] |
| Selection.RankingInverted | module/special_arena/special_arena.py:127 | After the inversion, a better (smaller) rank gives a strictly larger Ranking term |
| Selection.RankingOfThreeSlots | module/special_arena/special_arena.py:106-127 | For the three cards, the Ranking terms are 1, 0.5 and 0 |
| Selection.MissingWeight | module/special_arena/special_arena.py:131-132 | None exactly when all four weight keys are present; otherwise the first of Power, CommanderLevel, SynchroLevel, Ranking that is absent, which is the one `weights[dim]` raises KeyError on |
| Selection.ScoreDominance | module/special_arena/special_arena.py:129-134 | With non-negative weights, an opponent at least as good in every normalised dimension scores at least as high |
| Selection.ScoreOpponents | module/special_arena/special_arena.py:129-134 | The scoring loop fails with the missing key exactly when some weight is absent (and there is an opponent); otherwise each opponent, in order, gets the sum of its normalised values times the weights |
| Selection.Scores | module/special_arena/special_arena.py:129-134 | One scored entry per opponent, in order, with that opponent's weighted score |
| Selection.Insert | module/special_arena/special_arena.py:136 | Insertion adds exactly the one element to the multiset |
| Selection.SortDescending | module/special_arena/special_arena.py:136 | The sorted list is a permutation of the scored list |
| Selection.SortDescendingOrdered | module/special_arena/special_arena.py:136 | The sort is descending in score and stable: equal scores keep slot order; it is a permutation |
| Selection.Pick | module/special_arena/special_arena.py:139-144 | Max gives the first, Min the last, Middle the `len // 2`-th entry; any other strategy gives None |
| Selection.PickMax | module/special_arena/special_arena.py:139-140 | On a sorted list, Max picks a highest score, and the lowest slot among ties |
| Selection.PickMin | module/special_arena/special_arena.py:141-142 | On a sorted list, Min picks a lowest score, and the highest slot among ties |
| Selection.Selected | module/special_arena/special_arena.py:113-144 | `select_strategy` raises KeyError exactly when a weight is missing; otherwise it returns an opponent exactly for Max, Min and Middle, and that opponent is one of the inputs |
| Selection.SelectedSlot | module/special_arena/special_arena.py:113-144 | The selected opponent of the three cards has an id in 1..3 |
| Selection.SortExtremes | module/special_arena/special_arena.py:136-142 | After the sort, the first entry has the highest score and, among ties, the lowest slot; the last has the lowest score and, among ties, the highest slot |
| Selection.SelectedExtremes | module/special_arena/special_arena.py:136-142 | For any readings, Max selects the first and Min the last entry of the sorted scores |
| Selection.SelectStrategy | module/special_arena/special_arena.py:113-144 | The method follows `select_strategy` step by step and returns what `Selected` specifies |
| ArenaLoop.PyIndex | module/special_arena/special_arena.py:179 | Python list indexing: defined exactly for -len..len-1, with negative indices counted from the end |
| ArenaLoop.SlotButton | module/special_arena/special_arena.py:179 | Id k in 1..len gives `button[k - 1]` |
| ArenaLoop.ChosenOpponent | module/special_arena/special_arena.py:176-179 | With selection disabled, slot 3 is clicked; a selected id clicks its own slot's button; a failing selection propagates its exception |
| ArenaLoop.DecideLatch | module/special_arena/special_arena.py:169-224 | Only END_COMPETITION sets `already_start` and nothing in a pass clears it; once set, neither the opponent rule nor INTO_COMPETITION fires; the loop breaks only when the latch, SPECIAL_ARENA_CHECK and the confirm timer all hold |
| ArenaLoop.DecidePriority | module/special_arena/special_arena.py:169-224 | Each rule fires exactly when its guard holds and no earlier rule's guard does, and it resets exactly the timers the source resets |
| ArenaLoop.Run | module/special_arena/special_arena.py:163-229 | A run takes at most one step per frame and ends done, still running, or with an exception |
| ArenaLoop.RunRespectsLatch | module/special_arena/special_arena.py:161-224 | Over a whole run, opponent and INTO_COMPETITION clicks happen only while the latch is clear, and every break happens while it is set |
| ArenaLoop.RunClicksSlots | module/special_arena/special_arena.py:176-182 | Every opponent click of a run is on the button of the chosen slot, and on slot 3 when selection is disabled |
| ArenaLoop.RunFaults | module/special_arena/special_arena.py:176-179 | A run raises only what a selection raised, with selection enabled; there is never an IndexError |
| ArenaLoop.Pass | module/special_arena/special_arena.py:169-224 | The body of one pass, with its `continue`s, decides what `Decide` specifies |
| ArenaLoop.StartCompetition | module/special_arena/special_arena.py:154-229 | The `start_competition` loop, re-entered while free opportunities remain, takes exactly the steps of `Run` from a cleared latch |
| ArenaLoop.EntryDecide | module/special_arena/special_arena.py:240-254 | NEXT_SEASON raises the "unavailable" exception before anything else is looked at; otherwise the goto click and the arrival test fire under exactly their guards |
| ArenaLoop.Entry | module/special_arena/special_arena.py:234-254 | The entry loop takes at most one action per frame, never both raises and arrives, and raises only the "unavailable" exception |
| ArenaLoop.EntryRaisesOnNextSeason | module/special_arena/special_arena.py:240-241 | A NEXT_SEASON screen before any arriving screen makes the loop raise, and it never arrives past it |
| ArenaLoop.EnsureInto | module/special_arena/special_arena.py:256-259 | After arriving, the competition runs when a free opportunity remains and nothing happens otherwise; an exception from the entry loop stops everything |
| ArenaLoop.EnsureIntoArena | module/special_arena/special_arena.py:231-259 | The entry loop then the competition, with exactly the actions and steps `Entry` and `EnsureInto` specify |
| ArenaLoop.RunTask | module/special_arena/special_arena.py:261-267 | The scheduler task is delayed to the next server update exactly when the arena finished, had no free opportunity, or raised "unavailable"; any other exception escapes as itself |
| SpecialArena.SelectedId | module/special_arena/special_arena.py:176-178 | `select_strategy()["id"]` is in 1..3; it raises KeyError for a missing weight, and TypeError (`None["id"]`) when all weights are present but the strategy is none of Max, Min, Middle |
| SpecialArena.UnknownStrategyRaises | module/special_arena/special_arena.py:139-144 | With an unknown strategy, the first pass whose opponent rule fires raises TypeError |
| SpecialArena.StartCompetition | module/special_arena/special_arena.py:154-229 | On the special arena's buttons, every opponent click is on the selected slot (slot 3 when selection is disabled), and the loop raises only the selection's KeyError or TypeError |
| SpecialArena.RunTask | module/special_arena/special_arena.py:261-267 | NEXT_SEASON and no free opportunity both end in the server-update delay; only a failing selection escapes |
| RookieArena.SlotPoints | module/rookie_arena/rookie_arena.py:28-29 | Ids 1, 2 and 3 click (590, 730), (590, 900) and (590, 1100) |
| RookieArena.StartCompetition | module/rookie_arena/rookie_arena.py:130-198 | The rookie loop never raises; every opponent click is on `button[id - 1]`, and on (590, 1100) when selection is disabled |
| RookieArena.RunTask | module/rookie_arena/rookie_arena.py:230-236 | `run` never crashes: RookieArenaIsUnavailable (raised on NEXT_SEASON) is swallowed, and whenever `run` ends its scheduler task is delayed to the next server update |
| Coop.TowerStep | module/coop/coop.py:21-32 | The first entry loop handles a paid gift first; clicks TRIBE_CHECK only when the timer is ready and TRIBE_TOWER_CHECK is seen; leaves on TRIBE_TOWER_DETAILED_CHECK only when no earlier rule fired |
| Coop.DetailStep | module/coop/coop.py:40-52 | The second entry loop handles a paid gift first; clicks the stage on the detailed check when the timer is ready; leaves on STAGE_INFO_CHECK only when no earlier rule fired |
| Coop.StageStep | module/coop/coop.py:65-103 | A pass of the stage loop takes one of the rule actions or waits |
| Coop.StagePriority | module/coop/coop.py:65-103 | At most one rule fires per pass, the first whose guard holds in the order paid gift, FIGHT, AUTO_SHOOT, AUTO_BURST, red circles, NEXT_STAGE, END_CHECK, OPERATION_FAILED, and the pass waits exactly when none holds |
| Coop.StageSideConditions | module/coop/coop.py:85-100 | END_CHECK is clicked only when NEXT_STAGE is not visible; the red-circle rule needs the option and PAUSE, and fires without the click timer |
| Coop.Coop | module/coop/coop.py:12-108 | The three loops take at most one action per frame |
| Coop.CoopPhases | module/coop/coop.py:31-52 | Each action belongs to the loop reached by the actions before it: the second loop starts only after TRIBE_TOWER_DETAILED_CHECK, the stage loop only after STAGE_INFO_CHECK |
| Coop.CoopOnlyExit | module/coop/coop.py:59-108 | The run backs out only through OPERATION_FAILED, which is its last action and appears nowhere before |
| Coop.TryToCurrentStage | module/coop/coop.py:55-108 | The stage loop runs until OPERATION_FAILED, which is caught and answered by `ensure_back`, as `Coop` specifies from the stage loop |
| Coop.EntryLoop | module/coop/coop.py:15-52 | An entry loop consumes frames until its `break`, which moves to the next loop, or until the frames run out; the rest of the run continues from there |
| Coop.EnsureIntoCoop | module/coop/coop.py:12-53 | The two entry loops then the stage loop, as `Coop` specifies from the first loop |
| Effects.AdjustPosition | module/simulation_room/effect.py:108-121 | The area runs from the box's left edge and 10 pixels above its top to x = 635 and 10 pixels below its bottom |
| Effects.AdjustedAreaCoversBox | module/simulation_room/effect.py:113-121 | The area covers the box left of x = 635, with a margin of exactly 10 pixels above and below |
| Effects.PredictEnemyGenre | module/simulation_room/effect.py:123-127 | The first genre in dictionary order whose template matches, or None exactly when none matches |
| Effects.Step | module/simulation_room/effect.py:78-104 | A pass that emits an effect leaves no draft pending, and a pending draft never holds a name |
| Effects.RarityStartsDraft | module/simulation_room/effect.py:81-87 | A rarity item starts a fresh draft with only that rarity, discarding any pending draft that has no name yet |
| Effects.NameWithoutRarityIgnored | module/simulation_room/effect.py:90 | An effect-name item with no pending rarity changes nothing |
| Effects.NameEmits | module/simulation_room/effect.py:90-104 | A name item under a pending draft emits the effect at once, with this item's name and position and the draft's rarity and genre |
| Effects.MarkerSetsGenre | module/simulation_room/effect.py:95-98 | An item containing 适用对象 sets the pending draft's genre to what matches around it; any other item that is neither rarity nor name leaves the draft as it is |
| Effects.StepKeepsDraftGood | module/simulation_room/effect.py:81-104 | Drafts stay well formed along the loop, and an emitted effect has a rarity and an effect name from the two sets |
| Effects.ParseSound | module/simulation_room/effect.py:81-104 | Every emitted effect has a rarity in {SSR, SR, R} and a name in EFFECT_MAPPING_SET, and there are at most as many effects as rarity items |
| Effects.NoMarkerNoGenre | module/simulation_room/effect.py:96-104 | Without an item containing 适用对象, no effect has a genre |
| Effects.GenreBetweenRarityAndName | module/simulation_room/effect.py:81-104 | Over the whole list, an effect that has a genre took it from an item containing 适用对象 that comes before its name item, with no rarity item after that marker up to the name, so the marker belongs to the same draft |
| Effects.GenreOrigin | module/simulation_room/effect.py:81-104 | From any pending draft: an effect's genre comes from such a marker, or is the starting draft's genre when no rarity item precedes the effect's name item |
| Effects.ParseFromNameItems | module/simulation_room/effect.py:90-93 | Every effect takes its name, after `strip()`, and its position from one name item of the list |
| Effects.ParseInOrder | module/simulation_room/effect.py:78-106 | Effects come out in input order: those of a list are the effects of its first part, followed by those of the rest |
| Effects.Pass | module/simulation_room/effect.py:79-104 | The loop body, as the source writes it, emits and keeps pending what `Step` specifies |
| Effects.BuildEffectStruct | module/simulation_room/effect.py:71-106 | `build_effect_struct` returns exactly the effects `Parse` specifies for the items, from no draft |
| AssetExtract.SplitExt | dev_tools/event_button_extract.py:31 | `splitext` splits the path into two parts that concatenate back to it; the extension is empty or a single dot-led component part with no further dot |
| AssetExtract.Split | dev_tools/event_button_extract.py:154-157 | The name, sub-extension and extension concatenate back to the file name |
| AssetExtract.FileName | dev_tools/event_button_extract.py:39 | The file name is `name.genre.ext`, or `name.ext` when there is no genre |
| AssetExtract.SplitFileName | dev_tools/event_button_extract.py:154-157 | `split` inverts the naming: `X.AREA.png` gives (X, .AREA, .png) and `X.png` gives (X, '', .png) |
| AssetExtract.Classify | dev_tools/event_button_extract.py:166-177 | A leading digit gives no entry; otherwise `TEMPLATE_` gives a Template, another base image a Button, and anything else no entry; each case if and only if |
| AssetExtract.OverrideIsNoEntry | dev_tools/event_button_extract.py:159-177 | An override file `X.AREA.png` of a non-template name never becomes an entry of its own |
| AssetExtract.BaseIsButton | dev_tools/event_button_extract.py:159-177 | The base image of a name that is no template and does not start with a digit becomes a Button entry |
| AssetExtract.Slashes | dev_tools/event_button_extract.py:42 | `.replace('\\', '/')` keeps the length |
| AssetExtract.SlashesReplace | dev_tools/event_button_extract.py:42 | Every backslash becomes a slash, no backslash remains, and nothing else changes |
| AssetExtract.AssetPathShape | dev_tools/event_button_extract.py:42 | A probed path uses `/` only, and ends with the file name when that name is relative and has no backslash |
| AssetExtract.CandidateShape | dev_tools/event_button_extract.py:38-42 | The length and last character of a candidate path are fixed by the folder, the name, the genre and the extension |
| AssetExtract.CandidatesShape | dev_tools/event_button_extract.py:38-42 | Candidate paths of different genres differ in length, and the `.png` and `.gif` of one genre differ in their last character |
| AssetExtract.ProbeFinds | dev_tools/event_button_extract.py:37-49 | The probed file exists iff either candidate does; it is the `.png` whenever that exists, and the `.gif` only when the `.png` is missing |
| AssetExtract.ProbesDistinct | dev_tools/event_button_extract.py:80-93 | The base image and the three overrides are eight different files |
| AssetExtract.ProbeIgnores | dev_tools/event_button_extract.py:37-49 | Probing is unaffected by files other than its two candidates |
| AssetExtract.OverrideOnlyItsField | dev_tools/event_button_extract.py:83-97 | Adding an AREA, COLOR or BUTTON override changes its own field and nothing else; an AREA override does not move `button` |
| AssetExtract.ButtonDefaultsToBase | dev_tools/event_button_extract.py:84-97 | Without a BUTTON override, `button` is the base image's bbox, whatever the AREA override says |
| AssetExtract.GetFile | dev_tools/event_button_extract.py:37-49 | The probing loop returns the file `Probe` specifies for the genre's two candidates |
| AssetExtract.ImageExtractor.constructor | dev_tools/event_button_extract.py:24-32 | The name and extension come from `splitext` of the file, and the four per-server dictionaries start empty |
| AssetExtract.ImageExtractor.Extract | dev_tools/event_button_extract.py:51-68 | A GIF and a single image alike yield the bbox and mean of their first frame |
| AssetExtract.ImageExtractor.ReadImage | dev_tools/event_button_extract.py:80-93 | The base image and its overrides are read as `Resolve` specifies |
| AssetExtract.ImageExtractor.Load | dev_tools/event_button_extract.py:80-104 | With the base image, the server's four entries are the resolved values; without it they copy the `cn` entries, or KeyError('cn') leaves every dictionary unchanged; the four dictionaries keep the same keys |
| AssetExtract.ImageExtractor.Keep | dev_tools/event_button_extract.py:95-104 | The same three cases once the image is read |
| AssetExtract.NatRepr | dev_tools/event_button_extract.py:108-109 | The `repr` of a natural number is a non-empty string of decimal digits |
| AssetExtract.NatReprValue | dev_tools/event_button_extract.py:108-109 | Reading those digits back gives the number |
| AssetExtract.IntRepr | dev_tools/event_button_extract.py:108-109 | A negative int is a minus sign before the digits of its magnitude; others are their digits |
| AssetExtract.IntReprValue | dev_tools/event_button_extract.py:108-109 | An int's `repr` reads back as the int |
| AssetExtract.ButtonExpression | dev_tools/event_button_extract.py:106-109 | The line assigns a Button to the image's name |
| AssetExtract.TemplateExpression | dev_tools/event_button_extract.py:131-134 | The line assigns a Template to the image's name |
| AssetExtract.EntriesShape | dev_tools/event_button_extract.py:164-181 | One line per classified file; a KeyError exactly when some classified file has no base image on disk |
| AssetExtract.EntriesNamed | dev_tools/event_button_extract.py:164-181 | Each line is a Button or Template assignment to the name `splitext` gives one of the classified files |
| AssetExtract.FileEntry | dev_tools/event_button_extract.py:166-177 | The loop body produces the line `EntryLine` specifies for one file |
| AssetExtract.EntryStep | dev_tools/event_button_extract.py:166-177 | One turn of the listing loop either adds the file's line or ends the listing with its KeyError, matching `Entries` on the rest |
| AssetExtract.ModuleExpression | dev_tools/event_button_extract.py:163-181 | The header lines of IMPORT_EXP, with their trailing empty line, then one entry line per classified file in listing order, or the KeyError of the first file whose image is missing |
| Blablalink.Lookup | module/blablalink/blablalink.py:93-97 | A key is found exactly when some member has it, and the value found is one of that key's values |
| Blablalink.Get | module/blablalink/blablalink.py:93 | `.get` fails exactly on a value that is no dict; otherwise it gives the member's value, or the default when the key is absent |
| Blablalink.Elements | module/blablalink/blablalink.py:94 | Iteration fails exactly on None, booleans and numbers; it visits a list's items, a dict's keys and a string's characters |
| Blablalink.First | module/blablalink/blablalink.py:96 | `next(iter(v), None)` fails exactly when iteration does, is None exactly on an empty iteration, and is otherwise the first element |
| Blablalink.IsDaily | module/blablalink/blablalink.py:95 | A task is the daily task exactly when it is a dict whose `task_name` is 每日簽到; a task that is no dict raises AttributeError |
| Blablalink.CheckDailyStatus | module/blablalink/blablalink.py:90-102 | The search loop, with its early return and exception handler, returns what `DailyStatus` specifies |
| Blablalink.SearchFinds | module/blablalink/blablalink.py:94-98 | The first daily task, after dicts only, decides the search |
| Blablalink.SearchFound | module/blablalink/blablalink.py:94-98 | A search that finds the daily task found the first daily task, and reports that task's fields |
| Blablalink.SearchMissIsNotFound | module/blablalink/blablalink.py:99 | A search that does not find the daily task gives exactly (False, False, '') |
| Blablalink.FoundIff | module/blablalink/blablalink.py:90-102 | Found exactly when the list of tasks iterates and has a first daily task, after dicts only, whose fields read without an exception; the status is then that task's |
| Blablalink.NotFoundIsEmpty | module/blablalink/blablalink.py:90-102 | Not finding the daily task always gives (False, False, ''), exceptions included |
| Blablalink.MissingKeysNotFound | module/blablalink/blablalink.py:93 | Without `data`, the list of tasks is empty and the result is (False, False, '') |
| Blablalink.NoDailyTaskNotFound | module/blablalink/blablalink.py:94-99 | A list with no task named 每日簽到 gives (False, False, '') |
| Blablalink.BadTaskNotFound | module/blablalink/blablalink.py:94-102 | An element that is no dict before the daily task raises AttributeError, which the handler turns into (False, False, '') |
| Blablalink.DailyFields | module/blablalink/blablalink.py:96-98 | `task_id` defaults to ''; an empty or missing `reward_infos` leaves `completed` False; otherwise `completed` is the first reward's `is_completed`, default False |
| Blablalink.Sample | module/blablalink/blablalink.py:197 | The sample lists the posts at the picked positions, in the order picked |
| Blablalink.SampleSubMultiset | module/blablalink/blablalink.py:197 | A sample of different positions takes no post more often than the list holds it |
| Blablalink.SampleBounds | module/blablalink/blablalink.py:197 | A sample of size min(k, n) holds min(k, n) posts, at most that many different ones, all from the list, none more often than the list holds it |
| Blablalink.VisitRandomPosts | module/blablalink/blablalink.py:188-202 | `like_random_posts` (and `open_random_posts`) visit exactly the sampled posts, in sample order, and nothing when the list is empty |
| Blablalink.NextDayTarget | module/blablalink/blablalink.py:348-350 | The next target is a valid time later than now, on the next day, at 08:05 to 08:30 with zero seconds |
| Blablalink.TodayTarget | module/blablalink/blablalink.py:352-355 | Before 08:00, the target is a valid time later than now, today at 08:05 to 08:30 sharp |
| Blablalink.CommentParams | module/blablalink/blablalink.py:261-271 | `post_comment` raises AttributeError exactly when the `BlablalinkComment` option is set but is no dict; it has the two uuids exactly when the option is a dict with both set, and otherwise returns early |
| Blablalink.StringCommentRaises | module/blablalink/blablalink.py:261-267 | A non-empty string as the `BlablalinkComment` option makes `post_comment` raise |
| Blablalink.Run | module/blablalink/blablalink.py:301-355 | After 08:00 the sampled posts are liked and opened, and the comment is posted under the option's uuids exactly when both are set and an emoji was found. When `post_comment` raises, the handler catches it: no sign-in, no points, and the delay is still the next day's 08:05 to 08:30. Otherwise sign-in is sent exactly when tasks were fetched and the daily task was found not completed, and it carries that task's id; the points are read exactly after a successful sign-in; the delay is the next day's 08:05 to 08:30, or none after an early return. Before 08:00 nothing is done but the delay to today's 08:05 to 08:30 |
| Text.Strip | module/simulation_room/effect.py:79 | `strip()` is the slice of the string between its leading and trailing whitespace, with no whitespace at either end |
| Text.Find | module/ui/page.py:13 | `find` is -1 exactly when the character is absent, otherwise the index of its first occurrence |
| Text.ContainsIff | module/simulation_room/effect.py:96 | The substring test holds exactly when some slice of the string equals the substring |

## Left out

- The route search and `ui_ensure` live in `module/ui/ui.py`, which is not part of this model. `Routes` states shortest routes as a specification over `links`. It does not model the search's tie-breaking order.
- `Page.parent` and the check button's use in page detection belong to `ui.py` and are left out.
- `Pages.Page.Equals`, `Pages.Page.Key`, `Pages.Page.ToString`: hashing is modelled as the key it hashes, the name. Python's string hash itself is left out.
- `traceback.extract_stack()` on page.py line 12 is replaced by the statement's own line, `ConstructingLine`.
- Timers (`module/base/timer.py`) are not part of this model. `Timer.reached()` is a boolean of each frame, and `reset()` is reported in the step.
- Perception is not computed; its results are inputs of each frame. This covers `appear`, `appear_then_click`, `appear_on`, `match_several`, OCR (`opponent_info`, `competitor_power_list`, `own_power`, `Digit.ocr`), template matching in `predict_enemy_genre`, `handle_paid_gift`, `handle_red_circles` and `free_opportunity_remain`.
- Device actions (`click_minitouch`, `screenshot`, `sleep`, record clears), `skip_first_screenshot` and logging produce no state the model keeps. A loop entered with `skip_first_screenshot=True` (the stage loop from coop.py line 53, a re-entered `start_competition`) reuses the previous screenshot for its first pass; the model gives that pass a frame of its own, with no constraint tying it to the previous one.
- ArenaLoop.StartCompetition: the recursive `return self.start_competition()` (special arena line 229, rookie arena lines 195-198) is modelled as a loop that continues with a cleared latch. Python's recursion depth limit is not modelled.
- `ArenaBase.select_strategy`, which the rookie arena inherits, is not part of this model. Each rookie screen carries the slot id 1..3 it returns.
- Selection.Pick: requires a non-empty sorted list, so the `if sorted_data else None` guard on special arena line 144 is not modelled. `opponents_data` always yields three opponents.
- `int(...)` of OCR text and its ValueError are left out: readings are integers.
- `json.loads` of the sorting weights is modelled as a map to reals. A malformed weights string, and weights that are not numbers, are not modelled.
- Floating point: `_normalize`, the scores and `adjust_position` use exact reals and integers. Rounding and float32 are not modelled.
- `Coop.run` (coop.py lines 110-119) is left out. It navigates with `ui_ensure`, which is not part of this model, to `page_major_event`, which page.py never defines. `ensure_back` is not part of this model; the stage loop ends with it as an event.
- `EffectBase.__init__` only stores the OCR items. They are the input of `BuildEffectStruct`.
- The `print` of effect.py line 102 is left out.
- `crop(self.device.image, area)` is replaced by the set of genre templates that match the item's area.
- Image analysis in event_button_extract.py is replaced by each file's decoded bbox and mean: `load_image`, `imageio.mimread`, `_extract`, `get_bbox`, `get_color`, `np.rint`. The resolution warning and the "multiple different bbox" warning are logging only.
- AssetExtract.SplitExt: `os.path.splitext` and `os.path.join` are modelled for POSIX paths only.
- `str.isdigit` is modelled for ASCII digits only.
- AssetExtract.ButtonExpression: the `repr` of the numbers is that of plain ints (numpy's `repr` of its integer types is not modelled). The `repr` of strings assumes no quotes or backslashes in paths. Only the `cn` server is rendered, as `load()` fills only it.
- `ModuleExtractor.write`, `worker`, `AssetExtractor` and `process_map` (event_button_extract.py lines 183-204) are file-system writes and parallelism. They are left out, as is `os.listdir`: the listing is an input.
- `IMPORT_EXP` is modelled as its resulting lines.
- Blablalink: the HTTP session and its headers, `_prepare_config` and `NoCookie`, `_request_with_retry` and its random sleeps are left out. So are `get_tasks`, `perform_signin`, `get_points`, `get_post_list`, `like_post`, `open_post`, `post_comment` and `_get_random_emoji` (blablalink.py lines 32-88 and 104-299). Their results are the `Replies` input of `Run`.
- The network calls catch their own exceptions. The one exception that reaches the `except` branches of `run` (lines 341-345) is the AttributeError of `post_comment` on lines 266-267, which `CommentParams` and `Run` model. `NoCookie` (line 341) is raised only by the left-out session setup.
- Randomness is a bounded choice passed in: `random.sample` as distinct positions, and `randint(5, 30)` as a minute in 5..30.
- `datetime.now()` is an input `Moment`. Days are counted from a fixed date, so month and year boundaries are not modelled.
- JSON numbers are reals. A JSON object is its ordered member list, and the last duplicate key wins.
