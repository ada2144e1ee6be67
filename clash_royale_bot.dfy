/** The clash bot: start a battle from the main menu, play cards from the four slots, and
    wait for the result screen. The screen is read through find_template results passed in
    as values; a click is recorded as the position it aims at, before the random offset. */
module ClashBot {
  import opened Basics
  import opened Battle

  /** What perform_battle_actions tried: nothing outside a battle, no card when the elixir is
      short, else the card it asked play_card for, whether that succeeded and its clicks. */
  datatype Action = NotInBattle | Waited | Played(cardIndex: int, ok: bool, clicks: seq<Point>)

  /** The result strings of handle_battle_result. */
  const VictoryLabel: string := "胜利"
  const DefeatLabel: string := "失败"
  const UnknownLabel: string := "未知"

  /** handle_battle_result's reading of one poll: only a victory or a defeat ends the wait. */
  function OutcomeOf(s: Screen): (r: Option<Outcome>)
    ensures r == Some(Won) <==> DetectBattleState(s) == Victory
    ensures r == Some(Lost) <==> DetectBattleState(s) == Defeat
  {
    match DetectBattleState(s)
    case Victory => Some(Won)
    case Defeat => Some(Lost)
    case _ => None
  }

  class ClashRoyaleBot {
    var inBattle: bool
    var cardPositions: seq<CardPosition>

    constructor ()
      ensures !inBattle && cardPositions == []
    {
      inBattle := false;
      cardPositions := [];
    }

    /** start_battle: from the main menu both the battle button and the confirm button must be
        found and clicked; a screen already in battle is accepted as it is; a result screen
        refuses. `battleAt` and `confirmAt` are what click_template finds. */
    method StartBattle(s: Screen, battleAt: Option<Point>, confirmAt: Option<Point>)
      returns (ok: bool, clicks: seq<Point>)
      modifies this
      ensures ok <==> (DetectBattleState(s) == MainMenu && battleAt.Some? && confirmAt.Some?) ||
                      DetectBattleState(s) == InBattle
      ensures inBattle == (ok || old(inBattle))
      ensures cardPositions == old(cardPositions)
      ensures DetectBattleState(s) != MainMenu ==> clicks == []
      ensures DetectBattleState(s) == MainMenu ==>
                clicks == (if battleAt.None? then [] else if confirmAt.None? then [battleAt.value]
                           else [battleAt.value, confirmAt.value])
    {
      clicks := [];
      var state := DetectBattleState(s);
      if state == MainMenu {
        if battleAt.None? {
          return false, clicks;
        }
        clicks := clicks + [battleAt.value];
        if confirmAt.None? {
          return false, clicks;
        }
        clicks := clicks + [confirmAt.value];
        inBattle := true;
        return true, clicks;
      } else if state == InBattle {
        inBattle := true;
        return true, clicks;
      }
      return false, clicks;
    }

    /** detect_card_positions: the slots found, stored and returned. */
    method DetectCardPositions(slot: int -> Option<Point>) returns (positions: seq<CardPosition>)
      modifies this
      ensures positions == FoundSlots(slot, 4) && cardPositions == positions
      ensures inBattle == old(inBattle)
    {
      positions := ScanCardSlots(slot);
      cardPositions := positions;
    }

    /** play_card: re-detect the cards, look the requested slot up, click the card, then the
        target. With no target given, the target is the screen centre moved by the random
        offsets `dx` in -100..100 and `dy` in -50..50. */
    method PlayCard(cardIndex: int, target: Option<Point>, slot: int -> Option<Point>,
                    screenWidth: nat, screenHeight: nat, dx: int, dy: int)
      returns (ok: bool, clicks: seq<Point>)
      requires -100 <= dx <= 100 && -50 <= dy <= 50
      modifies this
      ensures cardPositions == FoundSlots(slot, 4) && inBattle == old(inBattle)
      ensures ok <==> 1 <= cardIndex <= 4 && slot(cardIndex).Some?
      ensures !ok ==> clicks == []
      ensures ok ==> |clicks| == 2 && clicks[0] == slot(cardIndex).value &&
                     clicks[1] == (if target.Some? then target.value
                                   else Point(screenWidth / 2 + dx, screenHeight / 2 + dy))
    {
      var positions := DetectCardPositions(slot);
      var cardPosition := LookupCard(cardPositions, cardIndex);
      FindFoundSlot(slot, 4, cardIndex);
      if cardPosition.None? {
        return false, [];
      }
      var targetPosition := if target.Some? then target.value
                            else Point(screenWidth / 2 + dx, screenHeight / 2 + dy);
      return true, [cardPosition.value, targetPosition];
    }

    /** perform_battle_actions: nothing unless in a battle; a card, chosen at random as
        `cardIndex` in 1..4, is played only when the elixir reading is at least 4. */
    method PerformBattleActions(elixir: int, cardIndex: int, slot: int -> Option<Point>,
                                screenWidth: nat, screenHeight: nat, dx: int, dy: int)
      returns (action: Action)
      requires 1 <= cardIndex <= 4 && -100 <= dx <= 100 && -50 <= dy <= 50
      modifies this
      ensures inBattle == old(inBattle)
      ensures !old(inBattle) ==> action == NotInBattle && cardPositions == old(cardPositions)
      ensures old(inBattle) && elixir < 4 ==> action == Waited && cardPositions == old(cardPositions)
      ensures old(inBattle) && elixir >= 4 ==>
                action.Played? && action.cardIndex == cardIndex && action.ok == slot(cardIndex).Some? &&
                action.clicks == (if slot(cardIndex).None? then []
                                  else [slot(cardIndex).value, Point(screenWidth / 2 + dx, screenHeight / 2 + dy)]) &&
                cardPositions == FoundSlots(slot, 4)
    {
      if !inBattle {
        return NotInBattle;
      }
      if elixir >= 4 {
        var ok, clicks := PlayCard(cardIndex, None, slot, screenWidth, screenHeight, dx, dy);
        return Played(cardIndex, ok, clicks);
      }
      return Waited;
    }

    /** handle_battle_result: poll the classifier for up to `polls` screens (as many as fit in
        ten seconds); a victory or a defeat is confirmed by clicking the OK button, when
        click_template finds it at `okAt`, and ends the battle; a timeout leaves it as it was. */
    method HandleBattleResult(polls: nat, screens: nat -> Screen, okAt: Option<Point>)
      returns (result: string, clicks: seq<Point>)
      modifies this
      ensures result in {VictoryLabel, DefeatLabel, UnknownLabel}
      ensures result == UnknownLabel <==> forall k :: 0 <= k < polls ==> OutcomeOf(screens(k)).None?
      ensures result == VictoryLabel <==>
                exists k :: 0 <= k < polls && DetectBattleState(screens(k)) == Victory &&
                  forall j :: 0 <= j < k ==> OutcomeOf(screens(j)).None?
      ensures clicks == if result != UnknownLabel && okAt.Some? then [okAt.value] else []
      ensures inBattle == (if result == UnknownLabel then old(inBattle) else false)
      ensures cardPositions == old(cardPositions)
    {
      var outcomeAt := (k: nat) => OutcomeOf(screens(k));
      assert forall k: nat :: outcomeAt(k) == OutcomeOf(screens(k));
      var outcome := PollOutcome(polls, outcomeAt);
      FirstOutcomeMeaning(polls, outcomeAt);
      if outcome.None? {
        return UnknownLabel, [];
      }
      var k0 :| 0 <= k0 < polls && outcomeAt(k0) == outcome && forall j :: 0 <= j < k0 ==> outcomeAt(j).None?;
      forall k | 0 <= k < polls && OutcomeOf(screens(k)).Some? && forall j :: 0 <= j < k ==> OutcomeOf(screens(j)).None?
        ensures k == k0
      {
        FirstOutcomeUnique(screens, k, k0);
      }
      clicks := if okAt.Some? then [okAt.value] else [];
      inBattle := false;
      result := if outcome.value == Won then VictoryLabel else DefeatLabel;
    }
  }

  /** Two polls cannot both be the first to show an outcome. */
  lemma FirstOutcomeUnique(screens: nat -> Screen, k1: nat, k2: nat)
    requires OutcomeOf(screens(k1)).Some? && forall j :: 0 <= j < k1 ==> OutcomeOf(screens(j)).None?
    requires OutcomeOf(screens(k2)).Some? && forall j :: 0 <= j < k2 ==> OutcomeOf(screens(j)).None?
    ensures k1 == k2
  {
  }
}
