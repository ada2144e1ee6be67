/** The spirit bot, which works inside one game window: the window and client rectangles, the
    gold and population readings, the upgrade button, the card slots, the shop and relic
    positions, relic selection, starting a battle, waiting for its result and the battle loop.
    The window system, find_template and the random draws are passed in as values. Every
    click of this bot first activates the window; `activated` says whether that succeeds, and
    a click is recorded as the position it aims at, before the random offset. */
module SpiritBot {
  import opened Basics
  import opened Battle

  /** A rectangle as the window system reports it: its four edges. */
  datatype Corners = Corners(left: int, top: int, right: int, bottom: int)

  /** The (x, y, width, height) form the bot stores. */
  function RectFromCorners(c: Corners): (r: Rect)
    ensures r.x == c.left && r.y == c.top
    ensures r.x + r.w == c.right && r.y + r.h == c.bottom
  {
    Rect(c.left, c.top, c.right - c.left, c.bottom - c.top)
  }

  /** ClientToScreen applied to both corners: client coordinates shifted by where the client
      area's origin lies on the screen. */
  function ToScreen(c: Corners, origin: Point): Corners
  {
    Corners(c.left + origin.x, c.top + origin.y, c.right + origin.x, c.bottom + origin.y)
  }

  /** The stored client rectangle starts at the client origin's screen position and has the
      size the client area reports, wherever the window is. */
  lemma ClientRectPlacement(c: Corners, origin: Point)
    requires c.left == 0 && c.top == 0
    ensures RectFromCorners(ToScreen(c, origin)) == Rect(origin.x, origin.y, c.right, c.bottom)
  {
  }

  /** A screenshot's size, or None when no screenshot could be taken. */
  datatype Shot = NoShot | Shot(w: nat, h: nat)

  /** detect_shop_cards: three cards along the lower quarter, at a quarter, half and three
      quarters of the width; none without a screenshot. */
  function ShopCards(shot: Shot): (r: seq<Point>)
    ensures shot.NoShot? ==> r == []
    ensures shot.Shot? ==> |r| == 3 && r[0].x <= r[1].x <= r[2].x &&
                           forall k :: 0 <= k < 3 ==> r[k].y == shot.h * 3 / 4
    ensures shot.Shot? ==> r[0].x == shot.w / 4 && r[1].x == shot.w / 2 && r[2].x == 3 * shot.w / 4
    ensures shot.Shot? && shot.w > 0 && shot.h > 0 ==>
              forall k :: 0 <= k < 3 ==> Inside(r[k], Rect(0, 0, shot.w, shot.h))
  {
    if shot.NoShot? then []
    else
      var w, h := shot.w, shot.h;
      [Point(w / 4, h * 3 / 4), Point(w / 2, h * 3 / 4), Point(3 * w / 4, h * 3 / 4)]
  }

  /** select_relic's three choices: left, middle and right at half height. */
  function RelicPositions(w: nat, h: nat): (r: seq<Point>)
    ensures |r| == 3 && forall k :: 0 <= k < 3 ==> r[k].y == h / 2
    ensures w > 0 && h > 0 ==> forall k :: 0 <= k < 3 ==> Inside(r[k], Rect(0, 0, w, h))
  {
    [Point(w / 4, h / 2), Point(w / 2, h / 2), Point(3 * w / 4, h / 2)]
  }

  /** The relics stand exactly above the shop cards: the same three columns. */
  lemma RelicsAboveShop(w: nat, h: nat)
    ensures forall k :: 0 <= k < 3 ==> RelicPositions(w, h)[k].x == ShopCards(Shot(w, h))[k].x
    ensures RelicPositions(w, h)[0].y <= ShopCards(Shot(w, h))[0].y
  {
  }

  /** upgrade_population's fixed button: a quarter across and three quarters down the client
      rectangle. */
  function UpgradeButton(client: Rect): (r: Point)
    ensures client.w > 0 && client.h > 0 ==> Inside(r, client)
    ensures client.w >= 4 ==> r.x > client.x
  {
    Point(client.x + client.w / 4, client.y + client.h * 3 / 4)
  }

  /** What a reading finds: its icon missing, no screenshot, or the value drawn for it. */
  datatype Reading<T> = IconMissing | NoScreenshot | Read(value: T)

  /** The ranges the source draws the readings from. */
  predicate GoldInRange(r: Reading<int>) { r.Read? ==> 10 <= r.value <= 50 }
  predicate PopulationInRange(r: Reading<(int, int)>)
  {
    r.Read? ==> 0 <= r.value.0 <= 5 && 5 <= r.value.1 <= 10
  }

  /** detect_population's pair: the population is cut down to the maximum when it exceeds it. */
  function Clamped(population: int, maxPopulation: int): (r: (int, int))
    ensures r.0 <= r.1 && r.1 == maxPopulation
    ensures r.0 == Min(population, maxPopulation)
  {
    if population > maxPopulation then (maxPopulation, maxPopulation) else (population, maxPopulation)
  }

  /** With the drawn ranges the population never exceeds the maximum, so the cut never bites. */
  lemma ClampKeepsDraw(r: Reading<(int, int)>)
    requires PopulationInRange(r) && r.Read?
    ensures Clamped(r.value.0, r.value.1) == r.value
  {
  }

  /** Whether the bot's click reaches the screen: there must be a position and the window must
      activate. */
  predicate Clicks(position: Option<Point>, activated: bool) { position.Some? && activated }

  /** What start_battle sees: the screen, the two buttons click_template finds, whether the
      relic screen shows after loading, the screenshot select_relic takes and its random
      choice among the three relics, and whether the window activates. */
  datatype StartView = StartView(screen: Screen, battleAt: Option<Point>, confirmAt: Option<Point>,
                                 relicAfterLoad: bool, relicShot: Shot, relicPick: nat, activated: bool)

  /** Whether select_relic succeeds. */
  predicate RelicChosen(v: StartView) { v.relicShot.Shot? && v.activated }

  /** Whether start_battle succeeds, given whether a relic was already selected. */
  predicate SpiritStartSucceeds(v: StartView, relicSelected: bool)
  {
    match DetectSpiritBattleState(v.screen, relicSelected)
    case MainMenu =>
      Clicks(v.battleAt, v.activated) && Clicks(v.confirmAt, v.activated) &&
      (v.relicAfterLoad ==> RelicChosen(v))
    case RelicSelection => RelicChosen(v)
    case InBattle => true
    case _ => false
  }

  /** handle_battle_result's reading of one poll: the victory screen is looked for first. */
  function OutcomeOf(s: Screen): (r: Option<Outcome>)
    ensures r == Some(Won) <==> s.victory
    ensures r == Some(Lost) <==> !s.victory && s.defeat
  {
    if s.victory then Some(Won) else if s.defeat then Some(Lost) else None
  }

  const VictoryResult: string := "victory"
  const DefeatResult: string := "defeat"
  const TimeoutResult: string := "timeout"

  /** The three results handle_battle_result can return are different strings. */
  lemma ResultsDistinct()
    ensures VictoryResult != DefeatResult && VictoryResult != TimeoutResult && DefeatResult != TimeoutResult
  {
    assert VictoryResult[0] != DefeatResult[0] && VictoryResult[0] != TimeoutResult[0] && DefeatResult[0] != TimeoutResult[0];
  }

  /** What handle_battle_result returns after looking at up to `polls` screens: the outcome of
      the first screen showing one, or a timeout. */
  function ResultOf(polls: nat, screens: nat -> Screen): (r: string)
    ensures r == VictoryResult || r == DefeatResult || r == TimeoutResult
  {
    match FirstOutcome(polls, (k: nat) => OutcomeOf(screens(k)))
    case None => TimeoutResult
    case Some(Won) => VictoryResult
    case Some(Lost) => DefeatResult
  }

  /** The result is "timeout" exactly when no poll shows an outcome; otherwise it is the
      outcome of a poll k before which no poll shows one. */
  lemma ResultOfMeaning(polls: nat, screens: nat -> Screen)
    ensures ResultOf(polls, screens) == TimeoutResult <==> forall k :: 0 <= k < polls ==> OutcomeOf(screens(k)).None?
    ensures var r := ResultOf(polls, screens);
            r != TimeoutResult ==>
              exists k :: 0 <= k < polls && OutcomeOf(screens(k)) == Some(if r == VictoryResult then Won else Lost) &&
                forall j :: 0 <= j < k ==> OutcomeOf(screens(j)).None?
  {
    var outcomeAt := (k: nat) => OutcomeOf(screens(k));
    assert forall k: nat :: outcomeAt(k) == OutcomeOf(screens(k));
    FirstOutcomeMeaning(polls, outcomeAt);
    ResultsDistinct();
  }

  /** The longest a battle is played for, and the time one round of actions takes, in seconds. */
  const MaxBattleTime: int := 180
  const RoundTime: int := 3

  /** The rounds a started battle plays: 180 seconds in steps of 3 (RoundsFitBattleTime). */
  const MaxRounds: int := 60

  lemma RoundsFitBattleTime()
    ensures MaxRounds == MaxBattleTime / RoundTime && MaxRounds * RoundTime == MaxBattleTime
  {
  }

  /** What one round of perform_battle_actions leaves in the bot: the gold and the population
      pair its last readings stored, and, when the energy allowed play_card, the card slots
      detect_card_positions found. These are inputs because the round's branches hang on
      random draws and on what the screen shows. */
  datatype SpiritRoundEffect = SpiritRoundEffect(gold: int, population: int, maxPopulation: int,
                                                 cardSlots: Option<int -> Option<Point>>)

  /** Everything one pass of auto_battle_loop sees: start_battle's view, whether the window
      activates again after a failed start, the effect of each round of battle actions, the
      result polls (as many as fit in 30 seconds), the confirm button and whether the window
      activates for its click. */
  datatype SpiritAttempt = SpiritAttempt(start: StartView, reactivated: bool, effects: nat -> SpiritRoundEffect,
                                         polls: nat, screens: nat -> Screen, okAt: Option<Point>, okActivated: bool)

  /** What auto_battle_loop returns when it runs at all. */
  datatype Tally = Tally(battles: nat, victories: nat, defeats: nat)

  /** All fields of the bot, as one value. */
  datatype SpiritFields = SpiritFields(hwnd: Option<int>, windowRect: Option<Rect>, clientRect: Option<Rect>,
                                       region: Option<Rect>, inBattle: bool, gold: int,
                                       cardPositions: seq<CardPosition>, population: int,
                                       maxPopulation: int, relicSelected: bool)

  /** The fields once start_battle has succeeded on view v: in a battle, with the relic marker
      reset after a start from the main menu and set after a choice on the relic screen. */
  function AfterStart(f: SpiritFields, v: StartView): SpiritFields
  {
    match DetectSpiritBattleState(v.screen, f.relicSelected)
    case MainMenu => f.(inBattle := true, relicSelected := false)
    case RelicSelection => f.(inBattle := true, relicSelected := true)
    case _ => f.(inBattle := true)
  }

  /** The fields after one round of perform_battle_actions with effect e: nothing happens outside
      a battle; inside one, gold and population are the round's last readings and the card
      positions are re-detected when a card was played. */
  function AfterRound(f: SpiritFields, e: SpiritRoundEffect): SpiritFields
  {
    if !f.inBattle then f
    else f.(gold := e.gold, population := e.population, maxPopulation := e.maxPopulation,
            cardPositions := if e.cardSlots.Some? then FoundSlots(e.cardSlots.value, 4) else f.cardPositions)
  }

  /** The card positions after the first n rounds of a battle: those detected by the last
      round that played a card, or `positions` when none did. */
  function LastCards(positions: seq<CardPosition>, effects: nat -> SpiritRoundEffect, n: nat): seq<CardPosition>
  {
    if n == 0 then positions
    else if effects(n - 1).cardSlots.Some? then FoundSlots(effects(n - 1).cardSlots.value, 4)
    else LastCards(positions, effects, n - 1)
  }

  /** The fields after the first n rounds. The rounds never leave the battle, never touch the
      window or the relic marker, and outside a battle change nothing. */
  function AfterRounds(f: SpiritFields, effects: nat -> SpiritRoundEffect, n: nat): (r: SpiritFields)
    ensures r.hwnd == f.hwnd && r.windowRect == f.windowRect && r.clientRect == f.clientRect && r.region == f.region
    ensures r.inBattle == f.inBattle && r.relicSelected == f.relicSelected
  {
    if n == 0 then f else AfterRound(AfterRounds(f, effects, n - 1), effects(n - 1))
  }

  /** Outside a battle the rounds change nothing. Inside one, gold and population are what the
      last round read, and the card positions are those of the last round that played a card,
      or the old ones when none did. */
  lemma {:induction false} AfterRoundsMeaning(f: SpiritFields, effects: nat -> SpiritRoundEffect, n: nat)
    ensures !f.inBattle ==> AfterRounds(f, effects, n) == f
    ensures f.inBattle && n > 0 ==>
              var r := AfterRounds(f, effects, n);
              r.gold == effects(n - 1).gold && r.population == effects(n - 1).population &&
              r.maxPopulation == effects(n - 1).maxPopulation
    ensures f.inBattle ==> AfterRounds(f, effects, n).cardPositions == LastCards(f.cardPositions, effects, n)
  {
    if n > 0 {
      AfterRoundsMeaning(f, effects, n - 1);
    }
  }

  /** One pass of auto_battle_loop from fields f: the fields afterwards, and the result of the
      battle, or None when the start fails. A started battle plays all its rounds; a result
      other than a timeout then ends it. */
  function Pass(f: SpiritFields, a: SpiritAttempt): (SpiritFields, Option<string>)
  {
    if !SpiritStartSucceeds(a.start, f.relicSelected) then (f, None)
    else
      var played := AfterRounds(AfterStart(f, a.start), a.effects, MaxRounds);
      var result := ResultOf(a.polls, a.screens);
      (if result == TimeoutResult then played else played.(inBattle := false), Some(result))
  }

  /** The first n passes: the fields after them, the results of the battles they started, in
      order, and whether one of them failed to start with the window then not activating
      again, which ends auto_battle_loop. The window fields never change. */
  function Passes(f: SpiritFields, attempts: nat -> SpiritAttempt, n: nat): (r: (SpiritFields, seq<string>, bool))
    ensures r.0.hwnd == f.hwnd && r.0.windowRect == f.windowRect && r.0.clientRect == f.clientRect && r.0.region == f.region
    ensures |r.1| <= n
  {
    if n == 0 then (f, [], false)
    else
      var before := Passes(f, attempts, n - 1);
      var after := Pass(before.0, attempts(n - 1));
      (after.0, before.1 + (if after.1.Some? then [after.1.value] else []),
       before.2 || (after.1.None? && !attempts(n - 1).reactivated))
  }

  /** Later passes only add results: the battles started never go down. */
  lemma {:induction false} PassesGrows(f: SpiritFields, attempts: nat -> SpiritAttempt, a: nat, b: nat)
    requires a <= b
    ensures |Passes(f, attempts, a).1| <= |Passes(f, attempts, b).1|
    decreases b
  {
    if a < b {
      PassesGrows(f, attempts, a, b - 1);
    }
  }

  /** The number of battles the first n passes started. */
  function Started(f: SpiritFields, attempts: nat -> SpiritAttempt, n: nat): nat
  {
    |Passes(f, attempts, n).1|
  }

  /** Whether each of the first n passes began with auto_battle_loop's condition holding: fewer
      than `numBattles` battles started, and no earlier pass stopped the loop. */
  predicate LoopRan(f: SpiritFields, attempts: nat -> SpiritAttempt, n: nat, numBattles: int)
  {
    n == 0 ||
    (LoopRan(f, attempts, n - 1, numBattles) && Started(f, attempts, n - 1) < numBattles &&
     !StopsWithin(f, attempts, n - 1))
  }

  /** LoopRan means what it says: every prefix of the passes had started fewer battles. */
  lemma {:induction false} LoopRanShort(f: SpiritFields, attempts: nat -> SpiritAttempt, n: nat, numBattles: int)
    requires LoopRan(f, attempts, n, numBattles)
    ensures forall k :: 0 <= k < n ==> Started(f, attempts, k) < numBattles
  {
    if n > 0 {
      LoopRanShort(f, attempts, n - 1, numBattles);
    }
  }

  /** What a loop that ran n passes under LoopRan promises: no pass but perhaps the last stopped
      it, and each pass began with fewer than `numBattles` battles started. */
  lemma LoopRanMeaning(f: SpiritFields, attempts: nat -> SpiritAttempt, n: nat, numBattles: int)
    requires LoopRan(f, attempts, n, numBattles)
    ensures n > 0 ==> !StopsWithin(f, attempts, n - 1)
    ensures forall k :: 0 <= k < n ==> Started(f, attempts, k) < numBattles
  {
    LoopRanShort(f, attempts, n, numBattles);
  }

  /** How many of the results are `name`. */
  function Count(results: seq<string>, name: string): (r: nat)
    ensures r <= |results|
  {
    if results == [] then 0
    else Count(results[..|results| - 1], name) + (if results[|results| - 1] == name then 1 else 0)
  }

  /** One more result adds one to its own name's count and nothing to the others. */
  lemma CountAppend(results: seq<string>, result: string, name: string)
    ensures Count(results + [result], name) == Count(results, name) + (if result == name then 1 else 0)
  {
    assert (results + [result])[..|results|] == results;
  }

  /** The tally of auto_battle_loop over a list of results: the battles, and the victories and
      defeats among them. */
  function TallyOf(results: seq<string>): Tally
  {
    Tally(|results|, Count(results, VictoryResult), Count(results, DefeatResult))
  }

  /** One more result counts one more battle, and one more victory or defeat when it is one. */
  lemma TallyAppend(results: seq<string>, result: string)
    ensures var t := TallyOf(results);
            TallyOf(results + [result]) ==
              if result == VictoryResult then t.(battles := t.battles + 1, victories := t.victories + 1)
              else if result == DefeatResult then t.(battles := t.battles + 1, defeats := t.defeats + 1)
              else t.(battles := t.battles + 1)
  {
    CountAppend(results, result, VictoryResult);
    CountAppend(results, result, DefeatResult);
    ResultsDistinct();
  }

  /** No result is both a victory and a defeat, so they add up to at most the battles. */
  lemma {:induction false} TallyBounded(results: seq<string>)
    ensures TallyOf(results).victories + TallyOf(results).defeats <= TallyOf(results).battles
  {
    if results != [] {
      TallyBounded(results[..|results| - 1]);
      ResultsDistinct();
    }
  }

  /** Whether one of the first n passes fails to start a battle and the window then does not
      activate again, which ends auto_battle_loop. */
  predicate StopsWithin(f: SpiritFields, attempts: nat -> SpiritAttempt, n: nat)
  {
    Passes(f, attempts, n).2
  }

  /** Pass n, taken after the first n passes, extends them: its fields are the new fields, its
      result is appended, and it stops the loop when it fails with no reactivation. */
  lemma PassesStep(f: SpiritFields, attempts: nat -> SpiritAttempt, n: nat, g: SpiritFields, outcome: Option<string>)
    requires (g, outcome) == Pass(Passes(f, attempts, n).0, attempts(n))
    ensures Passes(f, attempts, n + 1).0 == g
    ensures Passes(f, attempts, n + 1).1 == Passes(f, attempts, n).1 + (if outcome.Some? then [outcome.value] else [])
    ensures StopsWithin(f, attempts, n + 1) == (StopsWithin(f, attempts, n) || (outcome.None? && !attempts(n).reactivated))
  {
  }

  class AutoBattleSpirit {
    var hwnd: Option<int>
    var windowRect: Option<Rect>
    var clientRect: Option<Rect>
    var region: Option<Rect>
    var inBattle: bool
    var gold: int
    var cardPositions: seq<CardPosition>
    var population: int
    var maxPopulation: int
    var relicSelected: bool

    function Fields(): SpiritFields
      reads this
    {
      SpiritFields(hwnd, windowRect, clientRect, region, inBattle, gold, cardPositions,
                   population, maxPopulation, relicSelected)
    }

    /** The object before find_game_window has run: no window, nothing detected. */
    constructor ()
      ensures Fields() == SpiritFields(None, None, None, None, false, 0, [], 0, 0, false)
    {
      hwnd, windowRect, clientRect, region := None, None, None, None;
      inBattle, gold, cardPositions, population, maxPopulation, relicSelected := false, 0, [], 0, 0, false;
    }

    /** Whether there is a usable window handle (a handle of 0 counts as none). */
    predicate HasWindow()
      reads this
    {
      hwnd.Some? && hwnd.value != 0
    }

    /** update_window_rect: with a window, store its rectangle and its client rectangle in
        screen coordinates, and capture screenshots from the client rectangle from then on. */
    method UpdateWindowRect(window: Corners, client: Corners, clientOrigin: Point)
      modifies this
      ensures HasWindow() == old(HasWindow())
      ensures !old(HasWindow()) ==> Fields() == old(Fields())
      ensures old(HasWindow()) ==>
                var c := RectFromCorners(ToScreen(client, clientOrigin));
                Fields() == old(Fields()).(windowRect := Some(RectFromCorners(window)), clientRect := Some(c), region := Some(c))
    {
      if HasWindow() {
        windowRect := Some(RectFromCorners(window));
        clientRect := Some(RectFromCorners(ToScreen(client, clientOrigin)));
        region := clientRect;
      }
    }

    /** detect_gold: the drawn amount is stored and returned; without the icon or a screenshot
        the result is 0 and the field is left alone. */
    method DetectGold(r: Reading<int>) returns (value: int)
      requires GoldInRange(r)
      modifies this
      ensures value == if r.Read? then r.value else 0
      ensures Fields() == old(Fields()).(gold := if r.Read? then r.value else old(gold))
    {
      if !r.Read? {
        return 0;
      }
      gold := r.value;
      return gold;
    }

    /** detect_population: the drawn pair, cut to population <= maximum, is stored and
        returned; without the icon or a screenshot the result is (0, 0) and the fields are
        left alone. The pair may be any two integers here (see ClampKeepsDraw for the
        source's ranges). */
    method DetectPopulation(r: Reading<(int, int)>) returns (value: (int, int))
      modifies this
      ensures value.0 <= value.1
      ensures !r.Read? ==> value == (0, 0) && Fields() == old(Fields())
      ensures r.Read? ==> value == Clamped(r.value.0, r.value.1) &&
                          Fields() == old(Fields()).(population := value.0, maxPopulation := value.1)
    {
      if !r.Read? {
        return (0, 0);
      }
      population := r.value.0;
      maxPopulation := r.value.1;
      if population > maxPopulation {
        population := maxPopulation;
      }
      return (population, maxPopulation);
    }

    /** upgrade_population: read population and gold, then click the fixed upgrade button; a
        click that lands raises the maximum by exactly one. Without a client rectangle
        nothing is clicked. */
    method UpgradePopulation(populationReading: Reading<(int, int)>, goldReading: Reading<int>, activated: bool)
      returns (ok: bool, clicks: seq<Point>)
      requires GoldInRange(goldReading)
      modifies this
      ensures ok <==> old(clientRect).Some? && activated
      ensures clicks == if ok then [UpgradeButton(old(clientRect).value)] else []
      ensures var read := if populationReading.Read? then Clamped(populationReading.value.0, populationReading.value.1)
                          else (old(population), old(maxPopulation));
              Fields() == old(Fields()).(population := read.0, maxPopulation := read.1 + (if ok then 1 else 0),
                                         gold := if goldReading.Read? then goldReading.value else old(gold))
    {
      var populationRead := DetectPopulation(populationReading);
      var goldRead := DetectGold(goldReading);
      if clientRect.Some? {
        var button := UpgradeButton(clientRect.value);
        if activated {
          maxPopulation := maxPopulation + 1;
          return true, [button];
        }
      }
      return false, [];
    }

    /** detect_card_positions: the slots found, stored and returned. */
    method DetectCardPositions(slot: int -> Option<Point>) returns (positions: seq<CardPosition>)
      modifies this
      ensures positions == FoundSlots(slot, 4)
      ensures Fields() == old(Fields()).(cardPositions := positions)
    {
      positions := ScanCardSlots(slot);
      cardPositions := positions;
    }

    /** play_card: re-detect the cards and look the requested slot up; it fails exactly when
        no detected card has that slot. The card is then clicked, then the target: the one
        given, or the centre of the client rectangle (of the screen without one) moved by
        the random `dx` in -100..100 and `dy` in -50..50. */
    method PlayCard(cardIndex: int, target: Option<Point>, slot: int -> Option<Point>,
                    screenWidth: nat, screenHeight: nat, dx: int, dy: int, activated: bool)
      returns (ok: bool, clicks: seq<Point>)
      requires -100 <= dx <= 100 && -50 <= dy <= 50
      modifies this
      ensures Fields() == old(Fields()).(cardPositions := FoundSlots(slot, 4))
      ensures ok <==> FindCard(FoundSlots(slot, 4), cardIndex).Some?
      ensures ok <==> 1 <= cardIndex <= 4 && slot(cardIndex).Some?
      ensures !ok || !activated ==> clicks == []
      ensures ok && activated ==>
                var centre := if clientRect.Some? then Point(clientRect.value.x + clientRect.value.w / 2,
                                                             clientRect.value.y + clientRect.value.h / 2)
                              else Point(screenWidth / 2, screenHeight / 2);
                clicks == [slot(cardIndex).value, if target.Some? then target.value else Point(centre.x + dx, centre.y + dy)]
    {
      var positions := DetectCardPositions(slot);
      var cardPosition := LookupCard(cardPositions, cardIndex);
      FindFoundSlot(slot, 4, cardIndex);
      if cardPosition.None? {
        return false, [];
      }
      var targetPosition: Point;
      if target.Some? {
        targetPosition := target.value;
      } else if clientRect.Some? {
        var c := clientRect.value;
        targetPosition := Point(c.x + c.w / 2 + dx, c.y + c.h / 2 + dy);
      } else {
        targetPosition := Point(screenWidth / 2 + dx, screenHeight / 2 + dy);
      }
      clicks := if activated then [cardPosition.value, targetPosition] else [];
      return true, clicks;
    }

    /** select_relic: with a screenshot, click one of the three relics; a click that lands
        marks the relic as selected. */
    method SelectRelic(shot: Shot, pick: nat, activated: bool) returns (ok: bool, clicks: seq<Point>)
      requires pick < 3
      modifies this
      ensures ok <==> shot.Shot? && activated
      ensures ok ==> clicks == [RelicPositions(shot.w, shot.h)[pick]]
      ensures !ok ==> clicks == []
      ensures Fields() == if ok then old(Fields()).(relicSelected := true) else old(Fields())
    {
      if shot.NoShot? {
        return false, [];
      }
      var relic := RelicPositions(shot.w, shot.h)[pick];
      if activated {
        relicSelected := true;
        return true, [relic];
      }
      return false, [];
    }

    /** start_battle: from the main menu both buttons must be clicked and a relic screen that
        shows after loading must be dealt with; the battle then starts with the relic marker
        reset for the next one. On the relic screen a relic must be chosen. A battle in
        progress is accepted as it is; a result screen refuses. */
    method StartBattle(v: StartView) returns (ok: bool, clicks: seq<Point>)
      requires v.relicPick < 3
      modifies this
      ensures ok <==> SpiritStartSucceeds(v, old(relicSelected))
      ensures !ok ==> Fields() == old(Fields())
      ensures ok ==> Fields() == AfterStart(old(Fields()), v)
      ensures var state := DetectSpiritBattleState(v.screen, old(relicSelected));
              var relic := if RelicChosen(v) then [RelicPositions(v.relicShot.w, v.relicShot.h)[v.relicPick]] else [];
              clicks == match state
                case MainMenu =>
                  if !Clicks(v.battleAt, v.activated) then []
                  else if !Clicks(v.confirmAt, v.activated) then [v.battleAt.value]
                  else [v.battleAt.value, v.confirmAt.value] + (if v.relicAfterLoad then relic else [])
                case RelicSelection => relic
                case _ => []
    {
      var state := DetectSpiritBattleState(v.screen, relicSelected);
      if state == MainMenu {
        if !Clicks(v.battleAt, v.activated) {
          return false, [];
        }
        if !Clicks(v.confirmAt, v.activated) {
          return false, [v.battleAt.value];
        }
        clicks := [v.battleAt.value, v.confirmAt.value];
        if v.relicAfterLoad {
          var chosen, relicClicks := SelectRelic(v.relicShot, v.relicPick, v.activated);
          clicks := clicks + relicClicks;
          if !chosen {
            return false, clicks;
          }
        }
        inBattle := true;
        relicSelected := false;
        return true, clicks;
      } else if state == RelicSelection {
        var chosen, relicClicks := SelectRelic(v.relicShot, v.relicPick, v.activated);
        if !chosen {
          return false, relicClicks;
        }
        inBattle := true;
        return true, relicClicks;
      } else if state == InBattle {
        inBattle := true;
        return true, [];
      }
      return false, [];
    }

    /** perform_battle_actions: outside a battle nothing happens; inside one the round stores
        its gold and population readings and, when it plays a card, the card positions found
        for it. */
    method PerformBattleActions(e: SpiritRoundEffect)
      modifies this
      ensures Fields() == AfterRound(old(Fields()), e)
    {
      if !inBattle {
        return;
      }
      gold := e.gold;
      population := e.population;
      maxPopulation := e.maxPopulation;
      if e.cardSlots.Some? {
        var positions := DetectCardPositions(e.cardSlots.value);
      }
    }

    /** The inner loop of auto_battle_loop: rounds of battle actions while the battle lasts, at
        most 180 / 3. The actions never end a battle themselves, so a started battle always
        plays all of its rounds, and otherwise none is played. */
    method BattleRounds(effects: nat -> SpiritRoundEffect) returns (rounds: nat)
      modifies this
      ensures rounds == if old(inBattle) then MaxRounds else 0
      ensures Fields() == AfterRounds(old(Fields()), effects, rounds)
    {
      var battleDuration := 0;
      rounds := 0;
      while inBattle && battleDuration < MaxBattleTime
        invariant battleDuration == RoundTime * rounds && rounds <= MaxRounds
        invariant inBattle == old(inBattle) && (!inBattle ==> rounds == 0)
        invariant Fields() == AfterRounds(old(Fields()), effects, rounds)
      {
        PerformBattleActions(effects(rounds));
        battleDuration := battleDuration + RoundTime;
        rounds := rounds + 1;
      }
    }

    /** handle_battle_result: poll for the victory screen, then the defeat screen, up to
        `polls` times; a result is confirmed by clicking the OK button, when click_template
        finds it at `okAt` and the window activates, and ends the battle; a timeout leaves it
        as it was. */
    method HandleBattleResult(polls: nat, screens: nat -> Screen, okAt: Option<Point>, activated: bool)
      returns (result: string, clicks: seq<Point>)
      modifies this
      ensures result == ResultOf(polls, screens)
      ensures clicks == if result != TimeoutResult && Clicks(okAt, activated) then [okAt.value] else []
      ensures Fields() == if result == TimeoutResult then old(Fields()) else old(Fields()).(inBattle := false)
    {
      var outcomeAt := (k: nat) => OutcomeOf(screens(k));
      var outcome := PollOutcome(polls, outcomeAt);
      FirstOutcomeAgree(polls, outcomeAt, (k: nat) => OutcomeOf(screens(k)));
      if outcome.None? {
        return TimeoutResult, [];
      }
      clicks := if Clicks(okAt, activated) then [okAt.value] else [];
      inBattle := false;
      result := if outcome.value == Won then VictoryResult else DefeatResult;
    }

    /** One pass of auto_battle_loop: start a battle; when it starts, play its rounds and
        handle its result. Returns the result, or None when the start fails. */
    method PlayPass(a: SpiritAttempt) returns (outcome: Option<string>)
      requires a.start.relicPick < 3
      modifies this
      ensures (Fields(), outcome) == Pass(old(Fields()), a)
    {
      var started, startClicks := StartBattle(a.start);
      if !started {
        return None;
      }
      var rounds := BattleRounds(a.effects);
      var result, okClicks := HandleBattleResult(a.polls, a.screens, a.okAt, a.okActivated);
      return Some(result);
    }

    /** Pass number `n` of auto_battle_loop, carried on from the passes before it: the pass is
        played, a started battle's result joins the results and the tally, and a failed start
        after which the window does not activate again stops the loop. */
    method PlayNext(ghost start: SpiritFields, attempts: nat -> SpiritAttempt, n: nat,
                    ghost run: (SpiritFields, seq<string>, bool), tally: Tally, ghost numBattles: int)
      returns (ghost run': (SpiritFields, seq<string>, bool), tally': Tally, stop: bool)
      requires attempts(n).start.relicPick < 3
      requires run == Passes(start, attempts, n) && Fields() == run.0 && tally == TallyOf(run.1)
      modifies this
      ensures run' == Passes(start, attempts, n + 1) && Fields() == run'.0 && tally' == TallyOf(run'.1)
      ensures tally'.battles <= tally.battles + 1
      ensures run'.2 == (run.2 || stop)
      ensures LoopRan(start, attempts, n, numBattles) && tally.battles < numBattles && !run.2 ==>
                LoopRan(start, attempts, n + 1, numBattles)
    {
      var outcome := PlayPass(attempts(n));
      PassesStep(start, attempts, n, Fields(), outcome);
      var results := run.1;
      if outcome.None? {
        assert results + [] == results;
        return Passes(start, attempts, n + 1), tally, !attempts(n).reactivated;
      }
      var result := outcome.value;
      TallyAppend(results, result);
      run' := Passes(start, attempts, n + 1);
      if result == VictoryResult {
        tally' := tally.(battles := tally.battles + 1, victories := tally.victories + 1);
      } else if result == DefeatResult {
        tally' := tally.(battles := tally.battles + 1, defeats := tally.defeats + 1);
      } else {
        tally' := tally.(battles := tally.battles + 1);
      }
      stop := false;
    }

    /** auto_battle_loop: nothing runs when the window will not activate; otherwise the
        battles are played. */
    method AutoBattleLoop(numBattles: int, fuel: nat, activated: bool, attempts: nat -> SpiritAttempt)
      returns (tally: Option<Tally>, tries: nat)
      requires forall k :: attempts(k).start.relicPick < 3
      modifies this
      ensures tally.None? <==> !activated
      ensures tries <= fuel && (!activated ==> tries == 0)
      ensures !activated ==> Fields() == old(Fields())
      ensures activated ==>
                var run := Passes(old(Fields()), attempts, tries);
                Fields() == run.0 &&
                tally == Some(TallyOf(run.1))
      ensures tally.Some? ==> tally.value.victories + tally.value.defeats <= tally.value.battles
      ensures tally.Some? ==> tally.value.battles <= Max(0, numBattles) && tally.value.battles <= tries
      ensures tally.Some? && tries > 0 ==> !StopsWithin(old(Fields()), attempts, tries - 1)
      ensures activated ==> forall k :: 0 <= k < tries ==> Started(old(Fields()), attempts, k) < numBattles
      ensures tally.Some? && tries < fuel && tally.value.battles < Max(0, numBattles) ==>
                StopsWithin(old(Fields()), attempts, tries)
    {
      if !activated {
        return None, 0;
      }
      ghost var start := Fields();
      var played;
      played, tries := PlayBattles(numBattles, fuel, attempts);
      TallyBounded(Passes(start, attempts, tries).1);
      LoopRanMeaning(start, attempts, tries, numBattles);
      return Some(played), tries;
    }

    /** The loop of auto_battle_loop: battles are played until `numBattles` are done; a failed
        start is not counted, and ends the loop when the window will not activate again. The
        tally counts the battles started and the victories and defeats among their results,
        and every pass began with the loop's condition holding (LoopRan, whose consequences
        LoopRanMeaning spells out). The source retries a failed start without end; `fuel`
        bounds the passes. */
    method PlayBattles(numBattles: int, fuel: nat, attempts: nat -> SpiritAttempt) returns (tally: Tally, tries: nat)
      requires forall k :: attempts(k).start.relicPick < 3
      modifies this
      ensures tries <= fuel
      ensures var run := Passes(old(Fields()), attempts, tries); Fields() == run.0 && tally == TallyOf(run.1)
      ensures tally.battles <= Max(0, numBattles)
      ensures LoopRan(old(Fields()), attempts, tries, numBattles)
      ensures tries < fuel && tally.battles < Max(0, numBattles) ==> StopsWithin(old(Fields()), attempts, tries)
    {
      tries, tally := 0, Tally(0, 0, 0);
      var stopped := false;
      ghost var start := Fields();
      ghost var run := Passes(start, attempts, 0);
      while tally.battles < numBattles && tries < fuel && !stopped
        invariant tries <= fuel && tally.battles <= Max(0, numBattles)
        invariant run == Passes(start, attempts, tries) && Fields() == run.0 && tally == TallyOf(run.1)
        invariant stopped == run.2
        invariant LoopRan(start, attempts, tries, numBattles)
      {
        run, tally, stopped := PlayNext(start, attempts, tries, run, tally, numBattles);
        tries := tries + 1;
      }
    }
  }
}
