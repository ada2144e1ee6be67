/** The advanced battle bot: the battle area with its three lanes and six target points, the
    readings of energy, gold, refresh cost and population, the guarded shop operations, the
    attack or defence mode, and the battle loop with its counters. find_template results and
    random draws are passed in as values; a click is recorded as the position it aims at,
    before the random offset. */
module AdvancedBot {
  import opened Basics
  import opened Battle

  /** The battle area, the left, centre and right lanes, and the six target points. */
  datatype Layout = Layout(area: Rect, lanes: seq<Rect>, targets: seq<Point>)

  /** setup_battle_areas on a screenshot of the given size. The source scales by the floats
      0.8, 0.6, 0.7 and 0.3 and truncates; here the ratios are exact. */
  function BattleLayout(screenWidth: nat, screenHeight: nat): (r: Layout)
    ensures |r.lanes| == 3 && |r.targets| == 6
  {
    var battleWidth := screenWidth * 8 / 10;
    var battleHeight := screenHeight * 6 / 10;
    var left := (screenWidth - battleWidth) / 2;
    var top := (screenHeight - battleHeight) / 2;
    var laneWidth := battleWidth / 3;
    var lanes := [Rect(left, top, laneWidth, battleHeight),
                  Rect(left + laneWidth, top, laneWidth, battleHeight),
                  Rect(left + 2 * laneWidth, top, laneWidth, battleHeight)];
    var defenseY := top + battleHeight * 7 / 10;
    var offenseY := top + battleHeight * 3 / 10;
    var targets := [Point(left + laneWidth / 2, defenseY),
                    Point(left + laneWidth + laneWidth / 2, defenseY),
                    Point(left + 2 * laneWidth + laneWidth / 2, defenseY),
                    Point(left + laneWidth / 2, offenseY),
                    Point(left + laneWidth + laneWidth / 2, offenseY),
                    Point(left + 2 * laneWidth + laneWidth / 2, offenseY)];
    Layout(Rect(left, top, battleWidth, battleHeight), lanes, targets)
  }

  /** The battle area is 8/10 of the screen wide and 6/10 high, and lies inside the screen. */
  lemma LayoutArea(screenWidth: nat, screenHeight: nat)
    ensures var r := BattleLayout(screenWidth, screenHeight);
            0 <= r.area.x && r.area.x + r.area.w <= screenWidth &&
            0 <= r.area.y && r.area.y + r.area.h <= screenHeight &&
            r.area.w == screenWidth * 8 / 10 && r.area.h == screenHeight * 6 / 10
  {
  }

  /** The three lanes are a third of the area wide each, as high as the area, and lie side by
      side from its left edge. */
  lemma LayoutLanes(screenWidth: nat, screenHeight: nat)
    ensures var r := BattleLayout(screenWidth, screenHeight);
            r.lanes[0].x == r.area.x &&
            (forall k :: 0 <= k < 3 ==>
               r.lanes[k].w == r.area.w / 3 && r.lanes[k].y == r.area.y && r.lanes[k].h == r.area.h) &&
            (forall k :: 0 <= k < 2 ==> r.lanes[k + 1].x == r.lanes[k].x + r.lanes[k].w) &&
            r.lanes[2].x + r.lanes[2].w <= r.area.x + r.area.w
  {
  }

  /** Targets k and k + 3 are at the middle of lane k. */
  lemma LayoutColumns(screenWidth: nat, screenHeight: nat)
    ensures var r := BattleLayout(screenWidth, screenHeight);
            forall k :: 0 <= k < 6 ==> r.targets[k].x == r.lanes[k % 3].x + r.lanes[k % 3].w / 2
  {
    var r := BattleLayout(screenWidth, screenHeight);
    forall k | 0 <= k < 6
      ensures r.targets[k].x == r.lanes[k % 3].x + r.lanes[k % 3].w / 2
    {
      if k < 3 {
        assert k % 3 == k;
      } else {
        assert k % 3 == k - 3;
      }
    }
  }

  /** Targets 0-2 are the defense points, 7/10 down the area, and 3-5 the offense points,
      3/10 down it: the offense row is above the defense row, and both are inside the area. */
  lemma LayoutRows(screenWidth: nat, screenHeight: nat)
    ensures var r := BattleLayout(screenWidth, screenHeight);
            (forall k :: 0 <= k < 3 ==> r.targets[k].y == r.area.y + r.area.h * 7 / 10) &&
            (forall k :: 3 <= k < 6 ==> r.targets[k].y == r.area.y + r.area.h * 3 / 10) &&
            r.area.y <= r.targets[3].y <= r.targets[0].y &&
            (r.area.h > 0 ==> r.targets[0].y < r.area.y + r.area.h)
  {
    Fractions(BattleLayout(screenWidth, screenHeight).area.h);
  }

  /** Three tenths of a height are at most seven tenths of it, and less than all of it. */
  lemma Fractions(h: int)
    requires h >= 0
    ensures 0 <= h * 3 / 10 <= h * 7 / 10 && (h > 0 ==> h * 7 / 10 < h)
  {
  }

  /** With an area at least three pixels wide and not empty, every target lies in its lane. */
  lemma TargetsInLanes(screenWidth: nat, screenHeight: nat)
    ensures var r := BattleLayout(screenWidth, screenHeight);
            r.area.w >= 3 && r.area.h > 0 ==> forall k :: 0 <= k < 6 ==> Inside(r.targets[k], r.lanes[k % 3])
  {
    LayoutLanes(screenWidth, screenHeight);
    LayoutColumns(screenWidth, screenHeight);
    LayoutRows(screenWidth, screenHeight);
  }

  /** detect_energy: full when the full-energy marker is found, else the random `drawn` in 5..9. */
  function DetectEnergy(energyFull: bool, drawn: int): (r: int)
    requires 5 <= drawn <= 9
    ensures 5 <= r <= 10
    ensures r == 10 <==> energyFull
  {
    if energyFull then 10 else drawn
  }

  /** What a reading finds: its icon missing, or the value drawn for it. */
  datatype Reading = Missing | Read(value: int)

  /** What the population reading finds: its icon missing, or the two values drawn for it. */
  datatype PopulationReading = PopulationMissing | PopulationRead(population: int, limit: int)

  /** The ranges the source draws the readings from. The operations accept any values; these
      ranges only serve the lemmas about the placeholder readings. */
  predicate GoldInRange(r: Reading) { r.Read? ==> 30 <= r.value <= 100 }
  predicate CostInRange(r: Reading) { r.Read? ==> 1 <= r.value <= 5 }
  predicate PopulationInRange(r: PopulationReading)
  {
    r.PopulationRead? ==> 1 <= r.population <= 5 && r.population <= r.limit <= 10
  }

  /** The value detect_gold returns: 50 when the icon is missing. */
  function GoldValue(r: Reading): int { if r.Missing? then 50 else r.value }

  /** The value detect_refresh_cost returns: 2 when the button is missing. */
  function CostValue(r: Reading): int { if r.Missing? then 2 else r.value }

  /** The pair detect_population returns: (3, 6) when the icon is missing. */
  function PopulationValue(r: PopulationReading): (int, int)
  {
    if r.PopulationMissing? then (3, 6) else (r.population, r.limit)
  }

  /** With the source's ranges the gold read always covers both the refresh cost and the card
      price, so with those placeholder readings the shop guards never refuse. */
  lemma ReadingsAlwaysAfford(g: Reading, c: Reading)
    requires GoldInRange(g) && CostInRange(c)
    ensures GoldValue(g) >= CostValue(c) && GoldValue(g) >= 3
  {
  }

  /** upgrade_population goes ahead only when the population has reached its limit; with the
      defaults (3, 6) it never does, and with a drawn pair only when both are equal. */
  lemma UpgradeWanted(r: PopulationReading)
    requires PopulationInRange(r)
    ensures PopulationValue(r).0 >= PopulationValue(r).1 <==> r.PopulationRead? && r.population == r.limit
  {
  }

  /** select_card_to_play's rule: the first card of the play order once the energy is at
      least 4. */
  function ChooseCard(order: seq<int>, energy: int): (r: Option<int>)
    ensures r.Some? <==> energy >= 4 && |order| > 0
    ensures r.Some? ==> r.value == order[0]
  {
    if energy >= 4 && |order| > 0 then Some(order[0]) else None
  }

  /** Every energy reading is at least 5, so a card is always chosen when the order is not
      empty. */
  lemma ReadingAlwaysChooses(order: seq<int>, energyFull: bool, drawn: int)
    requires 5 <= drawn <= 9 && |order| > 0
    ensures ChooseCard(order, DetectEnergy(energyFull, drawn)) == Some(order[0])
  {
  }

  /** The attack-or-defence rule of perform_battle_actions: defend when outnumbered by at least
      two opponents, attack with energy 8 or more, otherwise keep the mode. */
  function NextAggressiveMode(current: bool, allies: nat, opponents: nat, energy: int): (r: bool)
    ensures opponents > allies && opponents >= 2 ==> !r
    ensures !(opponents > allies && opponents >= 2) && energy >= 8 ==> r
    ensures !(opponents > allies && opponents >= 2) && energy < 8 ==> r == current
  {
    if opponents > allies && opponents >= 2 then false
    else if energy >= 8 then true
    else current
  }

  /** The rule settles at once: applying it again to the same readings changes nothing. */
  lemma ModeSettles(current: bool, allies: nat, opponents: nat, energy: int)
    ensures NextAggressiveMode(NextAggressiveMode(current, allies, opponents, energy), allies, opponents, energy)
            == NextAggressiveMode(current, allies, opponents, energy)
  {
  }

  /** The targets a mode picks from: the offence points target_areas[3:] when attacking, the
      defence points target_areas[:3] when defending. */
  function Candidates(targets: seq<Point>, aggressive: bool): (r: seq<Point>)
    ensures aggressive ==> r == if |targets| >= 3 then targets[3..] else []
    ensures !aggressive ==> r == targets[..Min(3, |targets|)]
  {
    if aggressive then (if |targets| >= 3 then targets[3..] else [])
    else targets[..Min(3, |targets|)]
  }

  /** The target chosen among the candidates by the random index `pick`; None when there are
      none, and play_card then picks the target itself. */
  function TargetFor(targets: seq<Point>, aggressive: bool, pick: nat): (r: Option<Point>)
    ensures r.None? <==> Candidates(targets, aggressive) == []
    ensures r.Some? ==> r.value in Candidates(targets, aggressive)
  {
    var candidates := Candidates(targets, aggressive);
    if candidates == [] then None else Some(candidates[pick % |candidates|])
  }

  /** Once the battle areas are set, attacking aims at the enemy side and defending at one's
      own: an attacking target lies at the offence height, which is never below the defence
      height. */
  lemma TargetsAfterSetup(screenWidth: nat, screenHeight: nat, aggressive: bool, pick: nat)
    ensures TargetFor(BattleLayout(screenWidth, screenHeight).targets, aggressive, pick).Some?
    ensures aggressive ==>
              TargetFor(BattleLayout(screenWidth, screenHeight).targets, aggressive, pick).value.y ==
              BattleLayout(screenWidth, screenHeight).targets[3].y
    ensures !aggressive ==>
              TargetFor(BattleLayout(screenWidth, screenHeight).targets, aggressive, pick).value.y ==
              BattleLayout(screenWidth, screenHeight).targets[0].y
  {
    var t := BattleLayout(screenWidth, screenHeight).targets;
    var c := Candidates(t, aggressive);
    assert |c| == 3;
    assert forall k :: 0 <= k < 3 ==> c[k] == t[if aggressive then k + 3 else k];
  }

  /** The result strings of handle_battle_result. */
  const VictoryResult: string := "victory"
  const DefeatResult: string := "defeat"
  const InBattleResult: string := "in_battle"
  const UnknownResult: string := "unknown"

  /** The longest a battle is played for, and the time one round of actions takes, in seconds. */
  const MaxBattleTime: int := 180
  const CheckInterval: int := 2

  /** Whether a screen shows the end of a battle. */
  predicate Ends(s: Screen) { DetectBattleState(s) == Victory || DetectBattleState(s) == Defeat }

  /** The most rounds one battle runs: 180 seconds in steps of 2 (RoundsFitBattleTime). */
  const MaxRounds: int := 90

  lemma RoundsFitBattleTime()
    ensures MaxRounds == MaxBattleTime / CheckInterval && MaxRounds * CheckInterval == MaxBattleTime
  {
  }

  /** The number of rounds the inner loop of auto_battle_loop plays from round r on:
      `screens(k)` is the screen checked before round k, and the loop stops at the first one
      that shows a result, or after MaxRounds rounds. */
  function RoundsPlayed(screens: nat -> Screen, r: nat): nat
    decreases MaxRounds - r
  {
    if r >= MaxRounds || Ends(screens(r)) then r else RoundsPlayed(screens, r + 1)
  }

  /** From round r, the loop plays on through every screen without a result, and stops before
      MaxRounds only at a screen that shows one. */
  lemma {:induction false} RoundsPlayedMeaning(screens: nat -> Screen, r: nat)
    requires r <= MaxRounds
    ensures r <= RoundsPlayed(screens, r) <= MaxRounds
    ensures forall k :: r <= k < RoundsPlayed(screens, r) ==> !Ends(screens(k))
    ensures RoundsPlayed(screens, r) < MaxRounds ==> Ends(screens(RoundsPlayed(screens, r)))
    decreases MaxRounds - r
  {
    if r < MaxRounds && !Ends(screens(r)) {
      RoundsPlayedMeaning(screens, r + 1);
    }
  }

  /** What one round of perform_battle_actions leaves in the counters it writes (detect_gold,
      detect_refresh_cost and detect_population store readings, upgrade_population reads the
      population again, buy_card and refresh_cards spend gold), and, when the round gets as
      far as the mode rule, the unit counts and the energy that rule is given. Which of these
      steps run depends on random draws and image searches, so the values are inputs. */
  datatype ModeInput = ModeInput(allies: nat, opponents: nat, energy: int)
  datatype RoundEffect = RoundEffect(gold: int, refreshCost: int, population: int, populationLimit: int,
                                     modeRule: Option<ModeInput>)

  /** Everything one battle attempt of auto_battle_loop sees: the screen and the two buttons
      start_battle finds, the screens checked before the rounds and what each round does, and
      the screen and the confirm button handle_battle_result finds. */
  datatype Attempt = Attempt(start: Screen, battleAt: Option<Point>, confirmAt: Option<Point>,
                             rounds: nat -> Screen, effects: nat -> RoundEffect,
                             result: Screen, okAt: Option<Point>)

  /** Whether start_battle succeeds on a screen, given the two buttons it finds. */
  predicate StartsOn(s: Screen, battleAt: Option<Point>, confirmAt: Option<Point>)
  {
    (DetectBattleState(s) == MainMenu && battleAt.Some? && confirmAt.Some?) ||
    DetectBattleState(s) == InBattle
  }

  predicate StartSucceeds(a: Attempt)
  {
    StartsOn(a.start, a.battleAt, a.confirmAt)
  }

  /** The number of attempts among the first n that started a battle. */
  function CountStarts(attempts: nat -> Attempt, n: nat): nat
  {
    if n == 0 then 0 else CountStarts(attempts, n - 1) + (if StartSucceeds(attempts(n - 1)) then 1 else 0)
  }

  /** The number of attempts among the first n that started a battle whose result screen
      classifies as `outcome`. */
  function CountEndings(attempts: nat -> Attempt, n: nat, outcome: State): nat
  {
    if n == 0 then 0
    else CountEndings(attempts, n - 1, outcome) +
         (if StartSucceeds(attempts(n - 1)) && DetectBattleState(attempts(n - 1).result) == outcome then 1 else 0)
  }

  /** Victories and defeats together never outnumber the battles played. */
  lemma {:induction false} EndingsBounded(attempts: nat -> Attempt, n: nat)
    ensures CountEndings(attempts, n, Victory) + CountEndings(attempts, n, Defeat) <= CountStarts(attempts, n)
  {
    if n > 0 {
      EndingsBounded(attempts, n - 1);
    }
  }

  /** The win-rate line of auto_battle_loop as written: victories / battles_completed * 100
      is computed with no guard, so it divides by zero when no battle was played. */
  datatype RateLine = DivisionByZero | Percent(value: real)

  function WinRateAsWritten(victories: nat, completed: nat): (r: RateLine)
    ensures r == DivisionByZero <==> completed == 0
  {
    if completed == 0 then DivisionByZero else Percent(victories as real / completed as real * 100.0)
  }

  /** A loop asked for no battles makes no attempt (AutoBattleLoop ensures it), so the line as
      written divides by zero whatever the attempts would have been. */
  lemma NoBattlesDividesByZero(attempts: nat -> Attempt)
    ensures WinRateAsWritten(CountEndings(attempts, 0, Victory), CountStarts(attempts, 0)) == DivisionByZero
  {
  }

  /** The win rate with the guard the interrupt handler already applies: none when no battle
      was played, else a percentage within 0..100. */
  function WinRate(victories: nat, completed: nat): (r: Option<real>)
    ensures r.None? <==> completed == 0
    ensures r.Some? && victories <= completed ==> 0.0 <= r.value <= 100.0
    ensures r.Some? ==> r.value * completed as real == victories as real * 100.0
  {
    if completed == 0 then None
    else
      var rate := victories as real / completed as real;
      assert rate * completed as real == victories as real;
      assert victories <= completed ==> rate <= 1.0;
      Some(rate * 100.0)
  }

  /** The corrected rate agrees with the line as written whenever that line does not fail. */
  lemma WinRateCorrects(victories: nat, completed: nat)
    ensures WinRateAsWritten(victories, completed).Percent? <==> WinRate(victories, completed).Some?
    ensures WinRate(victories, completed).Some? ==>
              WinRate(victories, completed).value == WinRateAsWritten(victories, completed).value
  {
  }

  /** All fields of the bot, as one value. */
  datatype BotFields = BotFields(inBattle: bool, gold: int, refreshCost: int, population: int,
                                 populationLimit: int, battleArea: Option<Rect>, leftLane: Option<Rect>,
                                 centerLane: Option<Rect>, rightLane: Option<Rect>, aggressiveMode: bool,
                                 cardPlayOrder: seq<int>, targetAreas: seq<Point>)

  /** The fields with the battle areas of setup_battle_areas for a screen of the given size. */
  function WithLayout(f: BotFields, screenWidth: nat, screenHeight: nat): BotFields
  {
    var l := BattleLayout(screenWidth, screenHeight);
    f.(battleArea := Some(l.area), leftLane := Some(l.lanes[0]), centerLane := Some(l.lanes[1]),
       rightLane := Some(l.lanes[2]), targetAreas := l.targets)
  }

  /** The fields once start_battle has succeeded on screen s: in a battle, and with the battle
      areas set up when it started from the main menu. */
  function AfterStart(f: BotFields, s: Screen, screenWidth: nat, screenHeight: nat): BotFields
  {
    if DetectBattleState(s) == MainMenu then WithLayout(f, screenWidth, screenHeight).(inBattle := true)
    else f.(inBattle := true)
  }

  /** The fields after one round of perform_battle_actions: nothing outside a battle; in one,
      detect_units sets up the battle areas when there are none, the counters take the
      round's values, and the mode rule runs when the round reaches it. */
  function AfterRound(f: BotFields, e: RoundEffect, screenWidth: nat, screenHeight: nat): BotFields
  {
    if !f.inBattle then f
    else
      var g := if f.battleArea.None? then WithLayout(f, screenWidth, screenHeight) else f;
      g.(gold := e.gold, refreshCost := e.refreshCost, population := e.population,
         populationLimit := e.populationLimit,
         aggressiveMode := if e.modeRule.None? then f.aggressiveMode
                           else NextAggressiveMode(f.aggressiveMode, e.modeRule.value.allies,
                                                   e.modeRule.value.opponents, e.modeRule.value.energy))
  }

  /** The fields after the first n rounds. The rounds never change in_battle or the card play
      order, and they change the battle areas only by setting them up, once, in a battle
      that has none. */
  function AfterRounds(f: BotFields, effects: nat -> RoundEffect, n: nat, screenWidth: nat, screenHeight: nat): (r: BotFields)
    ensures r.inBattle == f.inBattle && r.cardPlayOrder == f.cardPlayOrder
    ensures var setUp := n > 0 && f.inBattle && f.battleArea.None?;
            r.battleArea == (if setUp then Some(BattleLayout(screenWidth, screenHeight).area) else f.battleArea) &&
            r.targetAreas == (if setUp then BattleLayout(screenWidth, screenHeight).targets else f.targetAreas)
  {
    if n == 0 then f
    else AfterRound(AfterRounds(f, effects, n - 1, screenWidth, screenHeight), effects(n - 1), screenWidth, screenHeight)
  }

  /** The fields after one pass of auto_battle_loop: a failed start changes nothing; a battle
      that starts plays its rounds and is left again when its result screen shows an ending. */
  function AfterAttempt(f: BotFields, a: Attempt, screenWidth: nat, screenHeight: nat): BotFields
  {
    if !StartSucceeds(a) then f
    else
      var started := AfterStart(f, a.start, screenWidth, screenHeight);
      var played := AfterRounds(started, a.effects, RoundsPlayed(a.rounds, 0), screenWidth, screenHeight);
      if Ends(a.result) then played.(inBattle := false) else played
  }

  /** The fields after the first n passes. The card play order never changes, and the battle
      area and targets are either those before the loop or the layout of the screen. */
  function FieldsAfter(f: BotFields, attempts: nat -> Attempt, n: nat, screenWidth: nat, screenHeight: nat): (r: BotFields)
    ensures r.cardPlayOrder == f.cardPlayOrder
    ensures r.battleArea == f.battleArea || r.battleArea == Some(BattleLayout(screenWidth, screenHeight).area)
    ensures r.targetAreas == f.targetAreas || r.targetAreas == BattleLayout(screenWidth, screenHeight).targets
  {
    if n == 0 then f
    else AfterAttempt(FieldsAfter(f, attempts, n - 1, screenWidth, screenHeight), attempts(n - 1), screenWidth, screenHeight)
  }

  /** Once a battle has started from the main menu, the battle areas are those of the screen
      for good. */
  lemma {:induction false} AreasSetUp(f: BotFields, attempts: nat -> Attempt, n: nat, k: nat,
                                      screenWidth: nat, screenHeight: nat)
    requires k < n && StartSucceeds(attempts(k)) && DetectBattleState(attempts(k).start) == MainMenu
    ensures FieldsAfter(f, attempts, n, screenWidth, screenHeight).battleArea == Some(BattleLayout(screenWidth, screenHeight).area)
    ensures FieldsAfter(f, attempts, n, screenWidth, screenHeight).targetAreas == BattleLayout(screenWidth, screenHeight).targets
  {
    if k < n - 1 {
      AreasSetUp(f, attempts, n - 1, k, screenWidth, screenHeight);
    }
  }

  /** More attempts never count fewer starts. */
  lemma {:induction false} CountStartsGrows(attempts: nat -> Attempt, a: nat, b: nat)
    requires a <= b
    ensures CountStarts(attempts, a) <= CountStarts(attempts, b)
    decreases b
  {
    if a < b {
      CountStartsGrows(attempts, a, b - 1);
    }
  }

  /** When the count before the last attempt was still short of `numBattles`, so was every
      earlier count: the loop stops right after the attempt that reaches it. */
  lemma StoppedAtLast(attempts: nat -> Attempt, tries: nat, numBattles: int)
    requires tries > 0 ==> CountStarts(attempts, tries - 1) < numBattles
    ensures forall k :: 0 <= k < tries ==> CountStarts(attempts, k) < numBattles
  {
    forall k | 0 <= k < tries
      ensures CountStarts(attempts, k) < numBattles
    {
      CountStartsGrows(attempts, k, tries - 1);
    }
  }

  /** The four result strings of handle_battle_result differ. */
  lemma ResultLabelsDistinct()
    ensures VictoryResult != DefeatResult && VictoryResult != InBattleResult && VictoryResult != UnknownResult
    ensures DefeatResult != InBattleResult && DefeatResult != UnknownResult
  {
    assert VictoryResult[0] == 'v' && DefeatResult[0] == 'd';
    assert InBattleResult[0] == 'i' && UnknownResult[0] == 'u';
  }

  class AdvancedBattleBot {
    var inBattle: bool
    var gold: int
    var refreshCost: int
    var population: int
    var populationLimit: int
    var battleArea: Option<Rect>
    var leftLane: Option<Rect>
    var centerLane: Option<Rect>
    var rightLane: Option<Rect>
    var aggressiveMode: bool
    var cardPlayOrder: seq<int>
    var targetAreas: seq<Point>

    function Fields(): BotFields
      reads this
    {
      BotFields(inBattle, gold, refreshCost, population, populationLimit, battleArea, leftLane,
                centerLane, rightLane, aggressiveMode, cardPlayOrder, targetAreas)
    }

    constructor ()
      ensures Fields() == BotFields(false, 0, 0, 0, 0, None, None, None, None, true, [1, 2, 3, 4], [])
    {
      inBattle, gold, refreshCost, population, populationLimit := false, 0, 0, 0, 0;
      battleArea, leftLane, centerLane, rightLane := None, None, None, None;
      aggressiveMode, cardPlayOrder, targetAreas := true, [1, 2, 3, 4], [];
    }

    /** setup_battle_areas: store the layout of a screenshot of the given size. */
    method SetupBattleAreas(screenWidth: nat, screenHeight: nat)
      modifies this
      ensures var l := BattleLayout(screenWidth, screenHeight);
              Fields() == old(Fields()).(battleArea := Some(l.area), leftLane := Some(l.lanes[0]),
                                         centerLane := Some(l.lanes[1]), rightLane := Some(l.lanes[2]),
                                         targetAreas := l.targets)
    {
      var l := BattleLayout(screenWidth, screenHeight);
      battleArea := Some(l.area);
      leftLane, centerLane, rightLane := Some(l.lanes[0]), Some(l.lanes[1]), Some(l.lanes[2]);
      targetAreas := l.targets;
    }

    /** detect_gold: a found icon stores and returns the drawn amount; a missing one returns 50
        and leaves the field alone. */
    method DetectGold(r: Reading) returns (value: int)
      modifies this
      ensures value == GoldValue(r)
      ensures Fields() == old(Fields()).(gold := if r.Read? then r.value else old(gold))
    {
      if r.Missing? {
        return 50;
      }
      gold := r.value;
      return gold;
    }

    /** detect_refresh_cost: like detect_gold, with 2 for a missing button. */
    method DetectRefreshCost(r: Reading) returns (value: int)
      modifies this
      ensures value == CostValue(r)
      ensures Fields() == old(Fields()).(refreshCost := if r.Read? then r.value else old(refreshCost))
    {
      if r.Missing? {
        return 2;
      }
      refreshCost := r.value;
      return refreshCost;
    }

    /** detect_population: a found icon stores and returns the drawn pair; a missing one returns
        (3, 6) and leaves the fields alone. */
    method DetectPopulation(r: PopulationReading) returns (value: (int, int))
      modifies this
      ensures value == PopulationValue(r)
      ensures r.PopulationMissing? ==> Fields() == old(Fields())
      ensures r.PopulationRead? ==> Fields() == old(Fields()).(population := r.population, populationLimit := r.limit)
    {
      if r.PopulationMissing? {
        return (3, 6);
      }
      population := r.population;
      populationLimit := r.limit;
      return (population, populationLimit);
    }

    /** start_battle: from the main menu both buttons must be found and clicked, after which the
        battle areas are set up; a screen already in battle is accepted as it is; a result
        screen refuses. */
    method StartBattle(s: Screen, battleAt: Option<Point>, confirmAt: Option<Point>,
                       screenWidth: nat, screenHeight: nat) returns (ok: bool, clicks: seq<Point>)
      modifies this
      ensures ok <==> StartsOn(s, battleAt, confirmAt)
      ensures !ok ==> Fields() == old(Fields())
      ensures ok ==> Fields() == AfterStart(old(Fields()), s, screenWidth, screenHeight)
      ensures DetectBattleState(s) != MainMenu ==> clicks == []
      ensures DetectBattleState(s) == MainMenu ==>
                clicks == (if battleAt.None? then [] else if confirmAt.None? then [battleAt.value]
                           else [battleAt.value, confirmAt.value])
    {
      clicks := [];
      var state := DetectBattleState(s);
      if state == MainMenu {
        if battleAt.None? {
          return false, clicks;
        }
        clicks := clicks + [battleAt.value];
        if confirmAt.None? {
          return false, clicks;
        }
        clicks := clicks + [confirmAt.value];
        SetupBattleAreas(screenWidth, screenHeight);
        inBattle := true;
        return true, clicks;
      } else if state == InBattle {
        inBattle := true;
        return true, clicks;
      }
      return false, clicks;
    }

    /** select_card_to_play: read the energy, let detect_units set up the battle areas when
        there are none, then walk the play order and take the first card the energy reading
        allows. */
    method SelectCardToPlay(energyFull: bool, drawn: int, screenWidth: nat, screenHeight: nat)
      returns (card: Option<int>)
      requires 5 <= drawn <= 9
      modifies this
      ensures card == ChooseCard(cardPlayOrder, DetectEnergy(energyFull, drawn))
      ensures Fields() == if old(battleArea).None? then WithLayout(old(Fields()), screenWidth, screenHeight)
                          else old(Fields())
    {
      var energy := DetectEnergy(energyFull, drawn);
      if battleArea.None? {
        SetupBattleAreas(screenWidth, screenHeight);
      }
      for i := 0 to |cardPlayOrder|
        invariant i > 0 ==> energy < 4
      {
        if energy >= 4 {
          return Some(cardPlayOrder[i]);
        }
      }
      return None;
    }

    /** upgrade_population: read the population; when it has reached its limit and the upgrade
        button is found, click it and read the population again. */
    method UpgradePopulation(first: PopulationReading, buttonAt: Option<Point>, second: PopulationReading)
      returns (ok: bool, clicks: seq<Point>)
      modifies this
      ensures ok <==> PopulationValue(first).0 >= PopulationValue(first).1 && buttonAt.Some?
      ensures clicks == if ok then [buttonAt.value] else []
      ensures var afterFirst := if first.PopulationRead? then old(Fields()).(population := first.population, populationLimit := first.limit)
                                else old(Fields());
              Fields() == if ok && second.PopulationRead? then afterFirst.(population := second.population, populationLimit := second.limit)
                          else afterFirst
    {
      var reading := DetectPopulation(first);
      if reading.0 >= reading.1 {
        if buttonAt.None? {
          return false, [];
        }
        var again := DetectPopulation(second);
        return true, [buttonAt.value];
      }
      return false, [];
    }

    /** refresh_cards: read the gold and the refresh cost; refuse when the gold read is short
        of the cost or the button is not found; else click it and take the cost off the gold
        field. */
    method RefreshCards(goldReading: Reading, costReading: Reading, buttonAt: Option<Point>)
      returns (ok: bool, clicks: seq<Point>)
      modifies this
      ensures ok <==> GoldValue(goldReading) >= CostValue(costReading) && buttonAt.Some?
      ensures clicks == if ok then [buttonAt.value] else []
      ensures var goldRead := if goldReading.Read? then goldReading.value else old(gold);
              var costRead := if costReading.Read? then costReading.value else old(refreshCost);
              Fields() == old(Fields()).(gold := goldRead - (if ok then CostValue(costReading) else 0),
                                         refreshCost := costRead)
    {
      var goldValue := DetectGold(goldReading);
      var cost := DetectRefreshCost(costReading);
      if goldValue < cost || buttonAt.None? {
        return false, [];
      }
      gold := gold - cost;
      return true, [buttonAt.value];
    }

    /** buy_card: like refresh_cards, with the fixed cost 3. */
    method BuyCard(goldReading: Reading, cardAt: Option<Point>) returns (ok: bool, clicks: seq<Point>)
      modifies this
      ensures ok <==> GoldValue(goldReading) >= 3 && cardAt.Some?
      ensures clicks == if ok then [cardAt.value] else []
      ensures var goldRead := if goldReading.Read? then goldReading.value else old(gold);
              Fields() == old(Fields()).(gold := goldRead - (if ok then 3 else 0))
    {
      var goldValue := DetectGold(goldReading);
      var cardCost := 3;
      if goldValue < cardCost || cardAt.None? {
        return false, [];
      }
      gold := gold - cardCost;
      return true, [cardAt.value];
    }

    /** The mode step of perform_battle_actions, on the unit counts and the energy read. */
    method UpdateMode(allies: nat, opponents: nat, energy: int)
      modifies this
      ensures Fields() == old(Fields()).(aggressiveMode := NextAggressiveMode(old(aggressiveMode), allies, opponents, energy))
    {
      if opponents > allies && opponents >= 2 {
        aggressiveMode := false;
      } else if energy >= 8 {
        aggressiveMode := true;
      }
    }

    /** handle_battle_result on one screen: a victory or a defeat is confirmed (the confirm
        button, or the screen centre when it is not found) and ends the battle. */
    method HandleBattleResult(s: Screen, okAt: Option<Point>, screenWidth: nat, screenHeight: nat)
      returns (result: string, clicks: seq<Point>)
      modifies this
      ensures DetectBattleState(s) == Victory ==> result == VictoryResult
      ensures DetectBattleState(s) == Defeat ==> result == DefeatResult
      ensures DetectBattleState(s) == InBattle ==> result == InBattleResult
      ensures DetectBattleState(s) == MainMenu ==> result == UnknownResult
      ensures Ends(s) ==> Fields() == old(Fields()).(inBattle := false) &&
                          clicks == [if okAt.Some? then okAt.value else Point(screenWidth / 2, screenHeight / 2)]
      ensures !Ends(s) ==> Fields() == old(Fields()) && clicks == []
    {
      var state := DetectBattleState(s);
      if state == Victory || state == Defeat {
        clicks := if okAt.Some? then [okAt.value] else [Point(screenWidth / 2, screenHeight / 2)];
        inBattle := false;
        result := if state == Victory then VictoryResult else DefeatResult;
      } else if state == InBattle {
        result, clicks := InBattleResult, [];
      } else {
        result, clicks := UnknownResult, [];
      }
    }

    /** What one call of perform_battle_actions does to the fields: nothing outside a battle;
        in one, detect_units sets up the battle areas when there are none, the counters take
        the round's values and the mode rule runs when the round reaches it. */
    method PerformBattleActions(e: RoundEffect, screenWidth: nat, screenHeight: nat)
      modifies this
      ensures Fields() == AfterRound(old(Fields()), e, screenWidth, screenHeight)
    {
      if !inBattle {
        return;
      }
      if battleArea.None? {
        SetupBattleAreas(screenWidth, screenHeight);
      }
      gold, refreshCost, population, populationLimit := e.gold, e.refreshCost, e.population, e.populationLimit;
      if e.modeRule.Some? {
        UpdateMode(e.modeRule.value.allies, e.modeRule.value.opponents, e.modeRule.value.energy);
      }
    }

    /** The inner loop of auto_battle_loop: check the screen, stop when it shows a result, else
        play one round; at most 180 / 2 rounds. `screens(r)` is the screen before round r and
        `effects(r)` what round r does. Returns the number of rounds played. */
    method BattleRounds(screens: nat -> Screen, effects: nat -> RoundEffect, screenWidth: nat, screenHeight: nat)
      returns (rounds: nat)
      modifies this
      ensures rounds == RoundsPlayed(screens, 0)
      ensures rounds <= MaxRounds
      ensures forall r :: 0 <= r < rounds ==> !Ends(screens(r))
      ensures rounds < MaxRounds ==> Ends(screens(rounds))
      ensures Fields() == AfterRounds(old(Fields()), effects, rounds, screenWidth, screenHeight)
    {
      var battleTime := 0;
      rounds := 0;
      while battleTime < MaxBattleTime
        invariant battleTime == CheckInterval * rounds && rounds <= MaxRounds
        invariant RoundsPlayed(screens, rounds) == RoundsPlayed(screens, 0)
        invariant Fields() == AfterRounds(old(Fields()), effects, rounds, screenWidth, screenHeight)
      {
        var state := DetectBattleState(screens(rounds));
        if state == Victory || state == Defeat {
          break;
        }
        PerformBattleActions(effects(rounds), screenWidth, screenHeight);
        rounds := rounds + 1;
        battleTime := battleTime + CheckInterval;
      }
      RoundsPlayedMeaning(screens, 0);
    }

    /** One pass of auto_battle_loop: start_battle, and after a successful start the rounds and
        handle_battle_result. */
    method PlayAttempt(a: Attempt, screenWidth: nat, screenHeight: nat) returns (started: bool, result: string)
      modifies this
      ensures started == StartSucceeds(a)
      ensures started ==> (result == VictoryResult <==> DetectBattleState(a.result) == Victory)
      ensures started ==> (result == DefeatResult <==> DetectBattleState(a.result) == Defeat)
      ensures Fields() == AfterAttempt(old(Fields()), a, screenWidth, screenHeight)
    {
      var startClicks;
      started, startClicks := StartBattle(a.start, a.battleAt, a.confirmAt, screenWidth, screenHeight);
      if !started {
        return false, UnknownResult;
      }
      var rounds := BattleRounds(a.rounds, a.effects, screenWidth, screenHeight);
      var resultClicks;
      result, resultClicks := HandleBattleResult(a.result, a.okAt, screenWidth, screenHeight);
      ResultLabelsDistinct();
    }

    /** auto_battle_loop: retry until `numBattles` battles are played; a failed start is not
        counted; each battle runs its rounds and then has its result handled. The source
        retries a failed start forever; `fuel` bounds the attempts. */
    method AutoBattleLoop(numBattles: int, fuel: nat, attempts: nat -> Attempt,
                          screenWidth: nat, screenHeight: nat)
      returns (completed: nat, victories: nat, defeats: nat, tries: nat, winRate: Option<real>)
      modifies this
      ensures tries <= fuel
      ensures completed == CountStarts(attempts, tries) && completed <= Max(0, numBattles)
      ensures tries < fuel ==> completed == Max(0, numBattles)
      ensures forall k :: 0 <= k < tries ==> CountStarts(attempts, k) < numBattles
      ensures victories == CountEndings(attempts, tries, Victory)
      ensures defeats == CountEndings(attempts, tries, Defeat)
      ensures victories + defeats <= completed
      ensures winRate == WinRate(victories, completed)
      ensures numBattles <= 0 ==> tries == 0 && completed == 0 && winRate.None?
      ensures Fields() == FieldsAfter(old(Fields()), attempts, tries, screenWidth, screenHeight)
    {
      completed, victories, defeats, tries := 0, 0, 0, 0;
      while completed < numBattles && tries < fuel
        invariant tries <= fuel
        invariant completed == CountStarts(attempts, tries) && completed <= Max(0, numBattles)
        invariant tries > 0 ==> CountStarts(attempts, tries - 1) < numBattles
        invariant victories == CountEndings(attempts, tries, Victory)
        invariant defeats == CountEndings(attempts, tries, Defeat)
        invariant numBattles <= 0 ==> tries == 0
        invariant Fields() == FieldsAfter(old(Fields()), attempts, tries, screenWidth, screenHeight)
      {
        var started, result := PlayAttempt(attempts(tries), screenWidth, screenHeight);
        if started {
          if result == VictoryResult {
            victories := victories + 1;
          } else if result == DefeatResult {
            defeats := defeats + 1;
          }
          completed := completed + 1;
        }
        tries := tries + 1;
      }
      StoppedAtLast(attempts, tries, numBattles);
      EndingsBounded(attempts, tries);
      winRate := WinRate(victories, completed);
    }
  }
}
