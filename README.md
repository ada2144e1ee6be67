# autogame — a verified model of its decision logic

autogame is a set of screen-automation bots for mobile card and strategy games: they look
for template images on the screen, click, drag and count battles. This project models, in
Dafny, the parts of the bots that decide something, and proves what they promise:

- the spiral and directional map search of the troop finder, with its menu mappings;
- the battle-state classifiers and the `in_battle` / `relic_selected` lifecycle of the
  three battle bots (`ClashRoyaleBot`, `AdvancedBattleBot`, `AutoBattleSpirit`) and of the
  base `AutoGame` loop, with their battle counters;
- the integer screen geometry: battle area, lanes, target points, shop, relic and
  upgrade-button positions, and the match centre of `find_template`;
- the gold, refresh-cost and population bookkeeping of the bots;
- the template inventory that each tool and launcher keeps, and the capture wizards built
  on it.

All I/O becomes an input. The template directory is the set `present` of file names that
exist. A template search is an oracle value: `Option<Point>`, or a function from poll,
screen or slot number to `Option<Point>`. A screen is the record of which state templates
are visible on it. Random draws (energy, offsets, picks) are parameters constrained to the
source's ranges. Timed waits are poll counts, and retry loops the source bounds only by
time are given a `fuel` bound. Every bot method that clicks returns its clicks, in order,
as the points aimed at (before the random offset) in a `clicks` sequence. The battle loops
state their counters and the bot's fields afterwards, not the clicks of each pass.

Each bot is a `class` whose fields are the Python object's fields. Its methods carry
`modifies this`, and their `ensures` give the whole new state through a `Fields()`
snapshot. Loops become `while` loops, each proved against a specification function.
A round of `perform_battle_actions` is given as the values it leaves in the counters it
writes (gold, refresh cost, population and its limit), because which of its steps run
hangs on random draws. What a round computes from the fields is modelled: the battle-area
set-up, the mode rule and the card-slot scan. So the battle loops state every field they
change, including the counters the rounds write.

Modules follow the source files:

- `Basics`: points, rectangles, drags and `Option`.
- `TemplateBase` (`template_tools/template_base.py`): the existing/missing partition, region
  validation of a capture, and the index check of the menus.
- `AutoGame` (`autogame.py`).
- `Battle`: the classifiers, outcome polling and the card-slot scan shared by the bots.
- `FindTroops` (`template_tools/find_troops.py`).
- `ClashBot`, `AdvancedBot`, `SpiritBot`: the three bots under `autochess/`.
- One module for each of the template tools and launchers: `TemplateManager`,
  `CreateTemplates`, `CardBattleTemplates`, `TemplateCreator`, `RunCardBattleBot`,
  `RunAutoBattleSpirit`.

Two behaviours of the code are modelled as written:

- In `AdvancedBattleBot`, `refresh_cards` and `buy_card` test the gold *read by*
  `detect_gold`, which is 50 when the coin icon is missing and is then not stored. They then
  subtract from the `gold` *field*. With the icon missing, the field can go below zero.
- The directional search's drag for a direction is the exact reverse of the spiral search's
  drag for the direction of the same name (`FindTroops.DirectionalIsReversedSpiral`).

## Model

| member | source | states |
|---|---|---|
| TemplateBase.CheckExistingTemplates | template_tools/template_base.py:29-41 | existing and missing are the required names whose file exists, and those whose file does not, each in required-list order |
| TemplateBase.PartitionComplete | template_tools/template_base.py:29-41 | every required name lands in exactly one list: the lengths add up to the required length and the two multisets add up to the required multiset |
| TemplateBase.Membership | template_tools/template_base.py:35-39 | a name is in existing iff it is required and its file exists; it is in missing iff it is required and its file is absent |
| TemplateBase.OrderPreserved | template_tools/template_base.py:34-39 | both lists are subsequences of the required list |
| TemplateBase.NoneMissingIff | template_tools/template_base.py:29-41 | the missing list is empty iff every required file exists |
| TemplateBase.ListMissing | autochess/run_card_battle_bot.py:41-47 | the missing-only filter returns the required names whose file is absent, in order |
| TemplateBase.CaptureRegion | template_tools/template_base.py:54-59 | a capture gets a region iff width > 0 and height > 0; the region runs from the first corner to the second; the copies of capture_template in template_manager.py:72-77, autochess/create_templates.py:74-79, create_card_battle_templates.py:81-86 and autochess/template_creator.py:74-79 validate the same way |
| TemplateBase.AfterCapture | template_tools/template_base.py:43-65 | the captured file exists afterwards iff it existed before or the region was valid; no other file changes |
| TemplateBase.CapturedAllBounds | create_card_battle_templates.py:149-156 | a run of captures only adds files, only adds captured names, and leaves every name with a valid selection in place |
| TemplateBase.CaptureEach | create_card_battle_templates.py:149-156 | one capture per name, in list order, with no early stop; the directory afterwards is that of the captures applied in turn |
| TemplateBase.PickIndex | template_manager.py:257-263 | "0" goes back; a number n picks index n-1 iff 1 <= n <= count; anything else is out of range or not a number |
| AutoGame.FindTemplate | autogame.py:54-91 | no match without a loaded template; a match iff max_val >= the given confidence, or >= the bot's own when none is given; the match is the template centre max_loc + (w//2, h//2) and lies inside the matched box |
| AutoGame.LowerThresholdStillFinds | autogame.py:81-91 | a match found at some confidence is found, at the same point, at every lower confidence |
| AutoGame.Click | autogame.py:93-113 | no click without a position; otherwise the click lands within ±random_offset of it on each axis, or exactly on it when the offset is 0 |
| AutoGame.ClickTemplate | autogame.py:115-124 | click_template succeeds iff find_template finds a match |
| AutoGame.WaitForTemplate | autogame.py:137-156 | returns the first non-None poll result, or None when all polls fail |
| AutoGame.AutoBattleLoop | autogame.py:190-233 | battles completed count exactly the successful starts and never exceed num_battles; every attempt made began with fewer than num_battles completed, so the loop stops right after the num_battles-th start; no attempt when num_battles <= 0 |
| AutoGame.CountStartedGrows | autogame.py:190-233 | more attempts never count fewer successful starts |
| Battle.DetectBattleState | autochess/advanced_battle_bot.py:125-146 | priority main_menu > victory > defeat > in_battle, each iff the earlier templates are absent and its own is present; the Clash bot has the same classifier at autochess/clash_royale_bot.py:54-75 |
| Battle.DetectSpiritBattleState | autochess/auto_battle_spirit.py:185-208 | relic_selection iff no battle button, no relic chosen yet and the relic screen shows; otherwise the same answer as the plain classifier |
| Battle.PollOutcome | autochess/clash_royale_bot.py:211-221 | the polling loop with its break returns FirstOutcome of the polls, the outcome of the first poll that shows one, or None |
| Battle.FirstOutcomeMeaning | autochess/clash_royale_bot.py:211-221 | no outcome iff no poll shows one; otherwise some poll k shows that outcome and no poll before k shows any |
| Battle.FirstOutcomeStays | autochess/clash_royale_bot.py:211-221 | once a poll shows an outcome, polling longer does not change the result |
| Battle.FirstOutcomeAgree | autochess/clash_royale_bot.py:211-221 | two poll sequences that agree on the first n polls give the same first outcome |
| Battle.FoundSlotsFound | autochess/auto_battle_spirit.py:432-442 | every listed slot index is in 1..n and its template was found at the listed position |
| Battle.FoundSlotsAscending | autochess/auto_battle_spirit.py:432-442 | the listed slot indices strictly ascend |
| Battle.FoundSlotsComplete | autochess/auto_battle_spirit.py:432-442 | every slot in 1..n whose template was found is listed |
| Battle.FoundSlotsExact | autochess/auto_battle_spirit.py:432-442 | the positions list only found slots, with indices in 1..n, strictly ascending, and every found slot is listed |
| Battle.FoundSlotsStep | autochess/clash_royale_bot.py:128-132 | slot n adds its (position, n) entry at the end when its template is found, and nothing otherwise |
| Battle.ScanCardSlots | autochess/clash_royale_bot.py:120-135 | the loop over slots 1..4 builds exactly the list of found slots |
| Battle.FindCard | autochess/auto_battle_spirit.py:561-569 | None iff no entry has the index; otherwise the point of the first entry with that index |
| Battle.LookupCard | autochess/clash_royale_bot.py:147-156 | the lookup loop with its break returns the first entry with the index |
| Battle.FindCardAppend | autochess/auto_battle_spirit.py:561-569 | looking up in a + b finds in a first, else in b |
| Battle.FindFoundSlot | autochess/clash_royale_bot.py:125-156 | looking up a card in the scanned list gives the slot's own result for indices 1..n, and None for any other index |
| FindTroops.SpiralDrag | template_tools/find_troops.py:224-235 | every drag is symmetric about the screen centre and moves 300 px along one axis in its direction |
| FindTroops.DirectionalIsReversedSpiral | template_tools/find_troops.py:152-163 | the directional drag for each direction is the spiral drag of the same name reversed |
| FindTroops.UpdateSpiral | template_tools/find_troops.py:247-254 | the four counters after the in-place update are the spiral step Advance of the four before it |
| FindTroops.SpiralStep | template_tools/find_troops.py:220-254 | one iteration after n drags makes spiral drag n and leaves the state after n + 1 updates |
| FindTroops.Advance | template_tools/find_troops.py:247-254 | one state update keeps 0 <= direction_index < 4, 0 <= steps_taken < steps_per_side, side_changes in {0, 1} and steps_per_side >= 1 |
| FindTroops.StateAfter | template_tools/find_troops.py:201-204 | the state after any number of updates satisfies that invariant |
| FindTroops.SideLength | template_tools/find_troops.py:252-254 | every side of the spiral is at least one drag long |
| FindTroops.SideParity | template_tools/find_troops.py:251-254 | side_changes is always 0 or 1 at the start of a side |
| FindTroops.SideClosedForm | template_tools/find_troops.py:247-254 | side c goes in direction c mod 4, starts with side_changes = c mod 2 and is c/2 + 1 drags long |
| FindTroops.StateAfterStep | template_tools/find_troops.py:208-254 | each iteration applies exactly one update: the state after m + 1 drags is Advance of the state after m |
| FindTroops.EndOfSide | template_tools/find_troops.py:247-254 | the update at the last drag of side c − 1 turns to the next direction and starts side c at step 0 with its own length and parity |
| FindTroops.NextInSide | template_tools/find_troops.py:247-248 | an update that does not end the side moves one step further along the same side |
| FindTroops.NextSide | template_tools/find_troops.py:247-254 | the last update of side c - 1 leaves the state at the start of side c |
| FindTroops.AlongSide | template_tools/find_troops.py:247-248 | from the start of side c, the first j updates (j < its length) stay on side c, j steps in |
| FindTroops.SideStart | template_tools/find_troops.py:201-254 | after the drags of all earlier sides the state is the start of side c |
| FindTroops.WithinSide | template_tools/find_troops.py:247-254 | after the first j updates of side c, the state is (direction c mod 4, j steps, side length c/2 + 1, c mod 2): run lengths 1, 1, 2, 2, 3, 3, … |
| FindTroops.SideDirection | template_tools/find_troops.py:200-201 | every drag of side c is made with direction_index c mod 4, so it goes in directions[c mod 4]: right, down, left, up in turn |
| FindTroops.StepsBeforeGrows | template_tools/find_troops.py:247-254 | for sides a < b, side a ends no later than side b starts |
| FindTroops.SideAt | template_tools/find_troops.py:247-254 | every drag n falls at some position j < SideLength(c) of some side c |
| FindTroops.SideUnique | template_tools/find_troops.py:247-254 | no drag lies on two different sides |
| FindTroops.SideOf | template_tools/find_troops.py:247-254 | every drag n lies on a side c at position j = n − StepsBefore(c) < SideLength(c), and c is the only side whose drags include n |
| FindTroops.FirstHit | template_tools/find_troops.py:169-175 | a hit is a target and its match; there is no hit iff no target matches |
| FindTroops.FirstHitIsFirst | template_tools/find_troops.py:169-175 | the hit is the first target in list order that matches |
| FindTroops.ScanScreen | template_tools/find_troops.py:169-175 | the scan loop returns the first matching target |
| FindTroops.NoHitBeforeMeaning | template_tools/find_troops.py:165-175 | NoHitBefore(n) holds iff none of the first n screens has a matching target |
| FindTroops.SearchHit | template_tools/find_troops.py:165-175 | a hit on screen i < max_iterations after i screens without one is the search outcome: found there, i drags made, one click on the matched point |
| FindTroops.SearchMiss | template_tools/find_troops.py:165-186 | max_iterations screens without a hit are the search outcome False, with max(0, max_iterations) drags and no click |
| FindTroops.DirectionalSearch | template_tools/find_troops.py:138-186 | at most max_iterations screens; stops at the first screen with a match, reports its first target and clicks its point once; the same drag between screens; False, with no click, only after max_iterations screens without a match |
| FindTroops.SpiralDrags | template_tools/find_troops.py:221-241 | the first n drags of the spiral, one per iteration |
| FindTroops.SpiralDragsAt | template_tools/find_troops.py:221-241 | drag k of that list goes from and to the points set for spiral direction k |
| FindTroops.SpiralSearch | template_tools/find_troops.py:188-256 | the same outcome and click, and the drags made are exactly the first ones of the spiral from the screen centre |
| FindTroops.LevelTemplates | template_tools/find_troops.py:69-75 | '1'..'5' search that level alone; '0' and any other answer search all five levels |
| FindTroops.SearchFor | template_tools/find_troops.py:85-98 | '5' is the spiral; '1'..'4' are up, down, left, right; any other answer searches right |
| ClashBot.OutcomeOf | autochess/clash_royale_bot.py:212-219 | a poll reads a victory or a defeat exactly as the classifier does |
| ClashBot.ClashRoyaleBot.constructor | autochess/clash_royale_bot.py:14-24 | a new bot is not in battle and knows no card positions |
| ClashBot.ClashRoyaleBot.StartBattle | autochess/clash_royale_bot.py:77-108 | succeeds iff on the main menu with both buttons found, or already in battle; success sets in_battle, failure leaves it; clicks only from the main menu |
| ClashBot.ClashRoyaleBot.DetectCardPositions | autochess/clash_royale_bot.py:120-135 | stores and returns exactly the found slots 1..4 |
| ClashBot.ClashRoyaleBot.PlayCard | autochess/clash_royale_bot.py:137-177 | succeeds iff the card index is in 1..4 and its slot is found; then it clicks the card and then the target, or a point within (±100, ±50) of the screen centre when there is no target |
| ClashBot.ClashRoyaleBot.PerformBattleActions | autochess/clash_royale_bot.py:179-200 | nothing unless in battle; waits when elixir < 4; otherwise plays the drawn card and records play_card's clicks: the card, then a point near the screen centre |
| ClashBot.ClashRoyaleBot.HandleBattleResult | autochess/clash_royale_bot.py:202-235 | "胜利" iff the first outcome seen is a victory, "失败" for a defeat, "未知" iff none is seen; an outcome clicks OK when it is found and clears in_battle, a timeout clicks nothing and leaves it |
| ClashBot.FirstOutcomeUnique | autochess/clash_royale_bot.py:211-219 | the first poll showing an outcome is unique |
| AdvancedBot.BattleLayout | autochess/advanced_battle_bot.py:81-123 | the layout has three lanes and six targets |
| AdvancedBot.LayoutArea | autochess/advanced_battle_bot.py:89-98 | the battle area is 8/10 of the screen width and 6/10 of its height and lies inside the screen |
| AdvancedBot.LayoutLanes | autochess/advanced_battle_bot.py:100-104 | three contiguous lanes of width bw//3 and the area's full height start at its left edge and end inside it |
| AdvancedBot.LayoutColumns | autochess/advanced_battle_bot.py:111-121 | target k sits at the horizontal centre of lane k mod 3 |
| AdvancedBot.LayoutRows | autochess/advanced_battle_bot.py:106-121 | targets 0–2 are at defense_y = by + 7/10 bh, targets 3–5 at offense_y = by + 3/10 bh, with by <= offense_y <= defense_y, and defense_y < by + bh when bh > 0 |
| AdvancedBot.TargetsInLanes | autochess/advanced_battle_bot.py:100-121 | when the battle area is at least 3 px wide and of positive height, every target lies inside its own lane |
| AdvancedBot.DetectEnergy | autochess/advanced_battle_bot.py:148-160 | the energy is 10 iff the full-energy template is found, else the draw in 5..9 |
| AdvancedBot.ReadingsAlwaysAfford | autochess/advanced_battle_bot.py:162-198 | readings in their stated ranges (or the defaults) always let a refresh and a purchase through |
| AdvancedBot.UpgradeWanted | autochess/advanced_battle_bot.py:200-218 | with readings in range, population reaches the limit iff it was read and equal to it |
| AdvancedBot.ChooseCard | autochess/advanced_battle_bot.py:301-306 | the first card of the play order iff energy >= 4, else none |
| AdvancedBot.ReadingAlwaysChooses | autochess/advanced_battle_bot.py:287-306 | with the energy reading in its range a card is always chosen |
| AdvancedBot.NextAggressiveMode | autochess/advanced_battle_bot.py:556-562 | defensive when opponents > allies and opponents >= 2, else aggressive when energy >= 8, else unchanged |
| AdvancedBot.ModeSettles | autochess/advanced_battle_bot.py:556-562 | applying the rule twice to the same counts changes nothing more |
| AdvancedBot.Candidates | autochess/advanced_battle_bot.py:567-576 | aggressive play picks from targets[3:], defensive play from targets[:3] |
| AdvancedBot.TargetFor | autochess/advanced_battle_bot.py:567-576 | the chosen target is one of the candidates; none only when there are none |
| AdvancedBot.TargetsAfterSetup | autochess/advanced_battle_bot.py:108-121 | after set-up a target always exists, at offense_y when aggressive and at defense_y otherwise |
| AdvancedBot.RoundsPlayedMeaning | autochess/advanced_battle_bot.py:656-667 | the inner loop plays at most 180/2 = 90 rounds, plays on through every screen without an ending, and stops before 90 rounds only at a screen that shows victory or defeat |
| AdvancedBot.AfterRounds | autochess/advanced_battle_bot.py:494-584 | the rounds never change in_battle or the card play order; they set the battle area and targets to the screen's layout when they run in a battle that has none, and otherwise leave them as they were |
| AdvancedBot.EndingsBounded | autochess/advanced_battle_bot.py:638-678 | victories + defeats never exceed the battles started |
| AdvancedBot.FieldsAfter | autochess/advanced_battle_bot.py:630-678 | the fields after the passes made, pass by pass AfterAttempt (start_battle, each round's perform_battle_actions, handle_battle_result); the card play order never changes, and the battle area and targets are those before the loop or the layout of the screen |
| AdvancedBot.CountStartsGrows | autochess/advanced_battle_bot.py:643-678 | more attempts never count fewer successful starts |
| AdvancedBot.StoppedAtLast | autochess/advanced_battle_bot.py:643-678 | when the attempts before the last had fewer than num_battles starts, so had every shorter prefix |
| AdvancedBot.AreasSetUp | autochess/advanced_battle_bot.py:251-285 | once a battle has started from the main menu, the battle area and targets are the layout's for every later pass |
| AdvancedBot.WinRateAsWritten | autochess/advanced_battle_bot.py:687 | the summary line divides by zero iff no battle was completed |
| AdvancedBot.NoBattlesDividesByZero | autochess/advanced_battle_bot.py:687 | a loop that starts no battle reaches that division by zero |
| AdvancedBot.WinRate | autochess/advanced_battle_bot.py:687 | the guarded rate: none iff no battle was completed, else victories × 100 / completed, in 0..100 |
| AdvancedBot.WinRateCorrects | autochess/advanced_battle_bot.py:687-692 | the guarded rate is defined exactly where the line as written does not divide by zero, and agrees with it there |
| AdvancedBot.AdvancedBattleBot.constructor | autochess/advanced_battle_bot.py:14-41 | the initial fields: not in battle, zero gold and population, no areas, aggressive, play order [1, 2, 3, 4] |
| AdvancedBot.AdvancedBattleBot.SetupBattleAreas | autochess/advanced_battle_bot.py:81-123 | stores the battle area, lanes and targets of the layout and changes nothing else |
| AdvancedBot.AdvancedBattleBot.DetectGold | autochess/advanced_battle_bot.py:162-179 | the reading, or 50 without storing it when the icon is missing |
| AdvancedBot.AdvancedBattleBot.DetectRefreshCost | autochess/advanced_battle_bot.py:181-198 | the reading, or 2 without storing it when the icon is missing |
| AdvancedBot.AdvancedBattleBot.DetectPopulation | autochess/advanced_battle_bot.py:200-218 | the reading, stored in both fields, or (3, 6) without storing it when the icon is missing |
| AdvancedBot.AdvancedBattleBot.StartBattle | autochess/advanced_battle_bot.py:251-285 | succeeds iff on the main menu with both buttons found, or already in battle; the fields afterwards are AfterStart: in battle, with the layout's areas after a main-menu start; failure changes nothing; clicks only from the main menu |
| AdvancedBot.AdvancedBattleBot.SelectCardToPlay | autochess/advanced_battle_bot.py:287-306 | the card chosen for the detected energy; through `detect_units` (:232-233) the battle areas are set up to the screen layout when there are none, and no other field changes |
| AdvancedBot.AdvancedBattleBot.UpgradePopulation | autochess/advanced_battle_bot.py:367-397 | clicks the upgrade button iff the population has reached the limit and the button is found; the second reading updates the fields |
| AdvancedBot.AdvancedBattleBot.RefreshCards | autochess/advanced_battle_bot.py:399-431 | no click when gold < cost or there is no button; on success the gold field drops by exactly the cost read |
| AdvancedBot.AdvancedBattleBot.BuyCard | autochess/advanced_battle_bot.py:433-467 | no click when gold < 3 or there is no card; on success the gold field drops by exactly 3 |
| AdvancedBot.AdvancedBattleBot.UpdateMode | autochess/advanced_battle_bot.py:556-562 | the mode becomes the rule's next mode and nothing else changes |
| AdvancedBot.AdvancedBattleBot.HandleBattleResult | autochess/advanced_battle_bot.py:586-628 | "victory", "defeat", "in_battle" or "unknown" by the classifier; an ending clears in_battle and clicks OK, anything else changes nothing |
| AdvancedBot.AdvancedBattleBot.PerformBattleActions | autochess/advanced_battle_bot.py:494-584 | nothing outside a battle; in one, the battle areas are set up (by detect_units) when there are none, gold, refresh_cost, population and population_limit take the round's values, and aggressive_mode follows the mode rule when the round reaches it; the fields afterwards are AfterRound |
| AdvancedBot.AdvancedBattleBot.BattleRounds | autochess/advanced_battle_bot.py:656-667 | the rounds played are RoundsPlayed: at most 90, each after a screen without an ending, and short of 90 only when the next screen shows one; the fields afterwards are AfterRounds of the rounds played |
| AdvancedBot.AdvancedBattleBot.PlayAttempt | autochess/advanced_battle_bot.py:643-677 | started iff start_battle succeeds; after a start the result is "victory" or "defeat" exactly when the result screen shows that ending; the fields afterwards are AfterAttempt |
| AdvancedBot.AdvancedBattleBot.AutoBattleLoop | autochess/advanced_battle_bot.py:630-693 | completed counts the successful starts and stays <= num_battles; every attempt made began with fewer than num_battles completed, so the loop stops right after the num_battles-th start; victories and defeats count the endings, with victories + defeats <= completed; the win rate is the guarded one; the fields afterwards are FieldsAfter the attempts made |
| SpiritBot.RectFromCorners | autochess/auto_battle_spirit.py:82-95 | a rect is stored as (left, top, right − left, bottom − top) |
| SpiritBot.ClientRectPlacement | autochess/auto_battle_spirit.py:86-89 | the client rectangle sits at its screen origin with its own width and height |
| SpiritBot.ShopCards | autochess/auto_battle_spirit.py:444-463 | no cards without a screenshot; otherwise three at x = w//4, w//2, 3w//4 in that order and y = 3h//4, inside the shot |
| SpiritBot.RelicPositions | autochess/auto_battle_spirit.py:256-258 | three relics at y = h//2, inside the shot |
| SpiritBot.RelicsAboveShop | autochess/auto_battle_spirit.py:256-258 | the relics share the shop cards' x values and lie above them |
| SpiritBot.UpgradeButton | autochess/auto_battle_spirit.py:410-413 | the upgrade button, at (x + w//4, y + 3h//4) of the client rect, lies inside it |
| SpiritBot.Clamped | autochess/auto_battle_spirit.py:388-394 | population is clamped to max_population |
| SpiritBot.ClampKeepsDraw | autochess/auto_battle_spirit.py:374-396 | a draw in its stated range is never clamped |
| SpiritBot.OutcomeOf | autochess/auto_battle_spirit.py:683-694 | a victory when the victory screen shows, a defeat when only the defeat screen does |
| SpiritBot.ResultOf | autochess/auto_battle_spirit.py:679-702 | one of the three results "victory", "defeat", "timeout" |
| SpiritBot.ResultOfMeaning | autochess/auto_battle_spirit.py:679-702 | "timeout" iff no poll shows an outcome; otherwise the outcome of a poll k before which no poll shows one |
| SpiritBot.AfterRounds | autochess/auto_battle_spirit.py:602-671 | the rounds of battle actions never leave the battle and never touch the window fields or relic_selected |
| SpiritBot.AfterRoundsMeaning | autochess/auto_battle_spirit.py:602-671 | outside a battle the rounds change nothing; in one, gold and population are the last round's readings and the card positions are those the last card-playing round detected |
| SpiritBot.Passes | autochess/auto_battle_spirit.py:731-763 | the first n passes never change hwnd, window_rect, client_rect or region, and give at most n results |
| SpiritBot.PassesGrows | autochess/auto_battle_spirit.py:731-763 | later passes never start fewer battles |
| SpiritBot.LoopRanShort | autochess/auto_battle_spirit.py:733 | when every pass began under the loop's condition, every prefix of the passes had started fewer than num_battles battles |
| SpiritBot.LoopRanMeaning | autochess/auto_battle_spirit.py:733-738 | when every pass began under the loop's condition, no pass but perhaps the last stopped the loop and every pass began with fewer than num_battles started |
| SpiritBot.Count | autochess/auto_battle_spirit.py:753-757 | a name occurs at most as often as there are results |
| SpiritBot.CountAppend | autochess/auto_battle_spirit.py:753-757 | one more result adds one to the count of its own name and nothing to any other |
| SpiritBot.TallyAppend | autochess/auto_battle_spirit.py:752-757 | one more battle adds one to battles, and one to victories or defeats when it is one |
| SpiritBot.TallyBounded | autochess/auto_battle_spirit.py:752-757 | victories + defeats never exceed battles |
| SpiritBot.PassesStep | autochess/auto_battle_spirit.py:733-763 | pass n extends the first n passes: its fields are the new fields, its result is appended, and it stops the loop iff it fails to start and the window does not activate again |
| SpiritBot.AutoBattleSpirit.constructor | autochess/auto_battle_spirit.py:20-48 | the initial fields: no window, not in battle, zero gold and population, no relic selected |
| SpiritBot.AutoBattleSpirit.UpdateWindowRect | autochess/auto_battle_spirit.py:76-95 | with a window handle, stores window_rect and client_rect as (x, y, w, h), and region equals client_rect; without one nothing changes |
| SpiritBot.AutoBattleSpirit.DetectGold | autochess/auto_battle_spirit.py:342-365 | the reading, stored, or 0 when the icon is missing |
| SpiritBot.AutoBattleSpirit.DetectPopulation | autochess/auto_battle_spirit.py:367-396 | (0, 0) with nothing stored when the icon is missing; otherwise the clamped reading, stored, with population <= max_population |
| SpiritBot.AutoBattleSpirit.UpgradePopulation | autochess/auto_battle_spirit.py:398-425 | returns False without a client_rect; with one, clicks the upgrade button and raises max_population by exactly 1 |
| SpiritBot.AutoBattleSpirit.DetectCardPositions | autochess/auto_battle_spirit.py:427-442 | stores and returns exactly the found slots 1..4 |
| SpiritBot.AutoBattleSpirit.PlayCard | autochess/auto_battle_spirit.py:550-600 | fails iff no scanned entry has the index; then clicks the card and the target or a point near the centre |
| SpiritBot.AutoBattleSpirit.SelectRelic | autochess/auto_battle_spirit.py:239-273 | with a screenshot, clicks the picked relic and sets relic_selected; without one nothing changes |
| SpiritBot.AutoBattleSpirit.StartBattle | autochess/auto_battle_spirit.py:275-327 | from the main menu: in battle with relic_selected False; on the relic screen: in battle once a relic is chosen; already in battle: in battle; any other state fails and changes nothing; the clicks are the battle and confirm buttons, as far as each is found, then the chosen relic |
| SpiritBot.AutoBattleSpirit.PerformBattleActions | autochess/auto_battle_spirit.py:602-671 | nothing outside a battle; in one, gold, population and max_population take the round's readings and the card positions are re-detected when the round plays a card; the fields afterwards are AfterRound |
| SpiritBot.AutoBattleSpirit.BattleRounds | autochess/auto_battle_spirit.py:744-749 | 180/3 = 60 rounds in battle, none otherwise; the fields afterwards are AfterRounds of those rounds |
| SpiritBot.AutoBattleSpirit.HandleBattleResult | autochess/auto_battle_spirit.py:673-712 | the result is ResultOf the polls; a victory or a defeat clicks OK when it is found and the window activates, and clears in_battle; a timeout clicks nothing and changes nothing |
| SpiritBot.AutoBattleSpirit.PlayPass | autochess/auto_battle_spirit.py:733-763 | one pass of the loop body: start_battle, the 60 rounds of perform_battle_actions and handle_battle_result leave the fields and result of Pass |
| SpiritBot.AutoBattleSpirit.PlayNext | autochess/auto_battle_spirit.py:733-763 | pass n after the first n passes leaves the fields, results and stop flag of the first n + 1, adds its result to the tally (one battle at most), stops the loop exactly when it fails to start and the window does not activate again, and keeps LoopRan when the loop's condition held |
| SpiritBot.AutoBattleSpirit.AutoBattleLoop | autochess/auto_battle_spirit.py:714-772 | no tally and no change without an activated window; otherwise battles is the number of battles started and victories and defeats are the victory and defeat results among them (TallyOf the results of the passes made), victories + defeats <= battles <= num_battles, the fields afterwards are those of the passes made, every pass began with fewer than num_battles started and after no stop, and the loop stops only at num_battles, at a failed start without reactivation, or when fuel runs out |
| SpiritBot.AutoBattleSpirit.PlayBattles | autochess/auto_battle_spirit.py:727-763 | the while loop: fields and tally are those of the passes made, battles <= num_battles, every pass began with the loop's condition holding (LoopRan), and short of fuel and num_battles it stopped at a failed start without reactivation |
| TemplateManager.RequiredTemplates | template_manager.py:31-44 | exactly nine distinct names |
| TemplateManager.CheckExistingTemplates | template_manager.py:46-59 | the complete, order-preserving partition of the nine names |
| TemplateManager.HighlightRect | template_manager.py:128-129 | the rectangle from (px − w//2, py − h//2) to (px + w//2, py + h//2) contains the match point |
| TemplateManager.HighlightFramesMatch | template_manager.py:117-129 | for a match of a loaded template, the highlight's top-left corner is max_loc |
| TemplateManager.ChooseTemplateToTest | template_manager.py:244-264 | nothing to test iff no template exists; otherwise the answer picks existing[n-1] iff 1 <= n <= the number of existing templates |
| CreateTemplates.RequiredTemplates | autochess/create_templates.py:30-46 | exactly twelve distinct names |
| CreateTemplates.CheckExistingTemplates | autochess/create_templates.py:48-61 | the complete, order-preserving partition of the twelve names |
| CreateTemplates.Step | autochess/create_templates.py:176-232 | option 1 captures each missing template, and nothing when none is missing; options 2 and 3 accept an index iff it is in range; only Quit ends the menu; files only grow |
| CreateTemplates.Menu | autochess/create_templates.py:148-258 | the lists shown always equal the partition of the directory; files only grow and only by required names; every tested template exists |
| CreateTemplates.StepStaysInside | autochess/create_templates.py:176-232 | one menu pass names only required templates and tests only existing ones |
| CardBattleTemplates.RequiredTemplates | create_card_battle_templates.py:30-53 | exactly nineteen distinct names |
| CardBattleTemplates.CheckExistingTemplates | create_card_battle_templates.py:55-68 | the complete, order-preserving partition of the nineteen names |
| CardBattleTemplates.CreateTemplates | create_card_battle_templates.py:113-159 | returns at once when nothing is missing; otherwise one capture per missing name, in order; each valid capture leaves its file in place |
| TemplateCreator.RequiredTemplates | autochess/template_creator.py:22-40 | exactly twelve distinct names |
| TemplateCreator.CheckExistingTemplates | autochess/template_creator.py:43-58 | the complete, order-preserving partition of the twelve names |
| TemplateCreator.CaptureWhileYes | autochess/template_creator.py:141-149 | the missing names are captured in order, and capture stops right after the first answer that is not 'y' |
| TemplateCreator.Wizard | autochess/template_creator.py:106-162 | exits iff nothing is missing, or when the user declines; otherwise captures a prefix of the missing names and lists what is still missing |
| RunCardBattleBot.RequiredTemplates | autochess/run_card_battle_bot.py:23-39 | exactly fifteen distinct names |
| RunCardBattleBot.CheckTemplates | autochess/run_card_battle_bot.py:20-47 | exactly the required names whose file is absent, in required order; empty iff every file exists |
| RunCardBattleBot.LaunchMenu | autochess/run_card_battle_bot.py:55-62 | the menu is shown iff every template exists; otherwise the missing names are listed and no bot is created |
| RunAutoBattleSpirit.RequiredTemplates | run_auto_battle_spirit.py:23-38 | exactly fourteen distinct names |
| RunAutoBattleSpirit.CheckTemplates | run_auto_battle_spirit.py:20-46 | exactly the required names whose file is absent, in required order; empty iff every file exists |
| RunAutoBattleSpirit.TemplateFor | run_auto_battle_spirit.py:167-177 | '1'..'6' name six of the required templates; any other choice performs no lookup |
| RunAutoBattleSpirit.StartAutoBattle | run_auto_battle_spirit.py:65-102 | returns before any battle while a template is missing; runs the battle loop iff every template exists and the window handle is neither None nor 0 |

## Left out

- Template matching (`cv2.matchTemplate`, `minMaxLoc`), screenshots and image reading are
  foreign numeric code. Their results are inputs: a match record, a flag record per
  screen, or a position per template.
- Clicks, drags, mouse moves and the win32 window calls are OS I/O. Rectangles, handles and
  activation come in as inputs, and clicks are recorded as the points aimed at.
- Sleeps and `time.time()` deadlines become poll counts. A start that keeps failing would
  retry forever in the source; the loops take a `fuel` bound instead.
- The `random` draws (energy, gold, population, offsets, card, relic and target picks)
  become inputs in the source's ranges.
- Confidence values are floats in the source and integers here (a scaled threshold). The
  0.8 / 0.6 / 0.7 / 0.3 screen ratios are exact integer ratios. A float product can differ
  from them by one pixel.
- Printing, logging, `input()` handling beyond the value read, and `cv2.imshow` are UI.
  The menus take the answer string and its parsed number as inputs, and lower-casing of
  yes/no answers becomes a boolean.
- The brightness test that tells whether a relic is chosen (`auto_battle_spirit.py`
  225-237) is floating-point image numerics. Whether a relic was chosen is an input.
- AdvancedBot.AdvancedBattleBot.PerformBattleActions: which steps of a round run
  (`merge_same_cards`, `upgrade_population`, `buy_card`, `refresh_cards`, `play_card`) hangs
  on random draws and image searches. So the values the round leaves in gold, refresh_cost,
  population and population_limit are inputs, and so is whether it reaches the mode rule,
  with which unit counts and energy. The lists `ally_units` and `opponent_units` that
  `detect_units` stores are not fields of the model, and the round's clicks are not recorded.
  `select_target_position` and `merge_same_cards` are not modelled.
- SpiritBot.AutoBattleSpirit.PerformBattleActions: for the same reason, the gold and
  population readings each round leaves, and whether it plays a card, are inputs. The slots
  `detect_card_positions` then finds are an input too. The round's clicks are not recorded.
  `detect_energy`, `buy_card`, `refresh_shop` and `select_card_to_buy` write no field and
  are not modelled.
- The copy of `advanced_battle_bot.py` from line 723 on is a pasted duplicate that is not
  valid Python. The cut-off ends of `clash_royale_bot.py` (287-288) and `template_manager.py`
  (after line 299) are left out too.
- `ClashRoyaleBot` inherits the base battle loop, which `AutoGame.AutoBattleLoop` models.
- `create_troop_templates` in `find_troops.py`, `autochess/run_bot.py` and `run_find_troops.py`
  are menu and launcher wiring.
- Option 1 of `run_card_battle_bot.py` reads `test_choice` at line 89, but it is assigned
  only in option 2's branch (line 151). After the bot is built and `num_battles` is read,
  option 1 therefore raises `UnboundLocalError`, and the bot never runs. This branch is not modelled.
- The pywin32 import check of `run_auto_battle_spirit.py` (55-63) is an environment check.
- SpiritBot.AutoBattleSpirit.AutoBattleLoop: each `activate_window` result is an input
  boolean (the first one, the one after a failed start, the one before each click); the
  result dictionary is the `Tally` record; the `KeyboardInterrupt` and other exception
  handlers (767-770) are not modelled. The window is taken as fixed between activations,
  so `Passes`, `PlayPass`, `PlayNext` and `PlayBattles` keep the stored window and client
  rectangles that `update_window_rect` (`auto_battle_spirit.py` 76-150) would re-read.
- SpiritBot.AutoBattleSpirit.StartBattle: the relic screen is taken as it shows after the
  load wait; the second screenshot that picks the relic is an input; the window is taken as fixed between activations, so the window and client rectangles that `activate_window` and `take_screenshot` re-read through `update_window_rect` (`auto_battle_spirit.py` 76-150) are those already stored, and the exception `find_template` raises when no window is found is not modelled.
- SpiritBot.AutoBattleSpirit.DetectGold: the window is taken as fixed between activations, so the window and client rectangles that `activate_window` and `take_screenshot` re-read through `update_window_rect` (`auto_battle_spirit.py` 76-150) are those already stored, and the exception `find_template` raises when no window is found is not modelled.
- SpiritBot.AutoBattleSpirit.DetectPopulation: the window is taken as fixed between activations, so the window and client rectangles that `activate_window` and `take_screenshot` re-read through `update_window_rect` (`auto_battle_spirit.py` 76-150) are those already stored, and the exception `find_template` raises when no window is found is not modelled.
- SpiritBot.AutoBattleSpirit.UpgradePopulation: the window is taken as fixed between activations, so the window and client rectangles that `activate_window` and `take_screenshot` re-read through `update_window_rect` (`auto_battle_spirit.py` 76-150) are those already stored, and the exception `find_template` raises when no window is found is not modelled. The button position is computed from the `client_rect` stored before the call.
- SpiritBot.AutoBattleSpirit.DetectCardPositions: the window is taken as fixed between activations, so the window and client rectangles that `activate_window` and `take_screenshot` re-read through `update_window_rect` (`auto_battle_spirit.py` 76-150) are those already stored, and the exception `find_template` raises when no window is found is not modelled.
- SpiritBot.AutoBattleSpirit.PlayCard: the window is taken as fixed between activations, so the window and client rectangles that `activate_window` and `take_screenshot` re-read through `update_window_rect` (`auto_battle_spirit.py` 76-150) are those already stored, and the exception `find_template` raises when no window is found is not modelled. The centre target is computed from the `client_rect` stored before the call.
- SpiritBot.AutoBattleSpirit.SelectRelic: the window is taken as fixed between activations, so the window and client rectangles that `activate_window` and `take_screenshot` re-read through `update_window_rect` (`auto_battle_spirit.py` 76-150) are those already stored, and the exception `find_template` raises when no window is found is not modelled.
- SpiritBot.AutoBattleSpirit.HandleBattleResult: the window is taken as fixed between activations, so the window and client rectangles that `activate_window` and `take_screenshot` re-read through `update_window_rect` (`auto_battle_spirit.py` 76-150) are those already stored, and the exception `find_template` raises when no window is found is not modelled.
- AutoGame.WaitForTemplate: the timeout is a number of polls, not seconds.
- AdvancedBot.WinRate: the rate is an exact rational; the float formatting of the
  summary line is not modelled.
- TemplateManager.ChooseTemplateToTest: the confidence value read after the index is a
  float and is not modelled.

## Findings

| source | as written | input that shows it | evidently intended | confidence | as-written member | corrected member |
|---|---|---|---|---|---|---|
| autochess/advanced_battle_bot.py:687 | the summary divides victories by battles_completed with no guard; only the copy of that line in the KeyboardInterrupt handler (692-693) is guarded, and ZeroDivisionError is not caught | auto_battle_loop(num_battles=0), or any negative count: no battle starts, battles_completed is 0, division by zero | report no win rate when no battle was completed | not executed | AdvancedBot.NoBattlesDividesByZero | AdvancedBot.WinRate |
