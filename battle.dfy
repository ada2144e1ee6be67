/** What the three battle bots share: the screen classifier built on "template found?" flags,
    the scan of the four card slots with the lookup of one slot, and the polling for a battle
    result. */
module Battle {
  import opened Basics

  /** Which marker templates find_template reports on one screenshot: the battle button of the
      main menu, the relic-selection screen, the victory screen and the defeat screen. */
  datatype Screen = Screen(battleButton: bool, relicScreen: bool, victory: bool, defeat: bool)

  datatype State = MainMenu | RelicSelection | Victory | Defeat | InBattle

  /** detect_battle_state of the advanced and the clash bots: the main menu wins over a
      victory, a victory over a defeat, and a screen showing none of them is taken to be a
      battle in progress. */
  function DetectBattleState(s: Screen): (r: State)
    ensures r != RelicSelection
    ensures r == MainMenu <==> s.battleButton
    ensures r == Victory <==> !s.battleButton && s.victory
    ensures r == Defeat <==> !s.battleButton && !s.victory && s.defeat
    ensures r == InBattle <==> !s.battleButton && !s.victory && !s.defeat
  {
    if s.battleButton then MainMenu
    else if s.victory then Victory
    else if s.defeat then Defeat
    else InBattle
  }

  /** detect_battle_state of the spirit bot: the relic-selection screen sits between the main
      menu and the results, and counts only while no relic has been chosen; on every other
      screen it agrees with the two-bot classifier. */
  function DetectSpiritBattleState(s: Screen, relicSelected: bool): (r: State)
    ensures r == RelicSelection <==> !s.battleButton && !relicSelected && s.relicScreen
    ensures r != RelicSelection ==> r == DetectBattleState(s)
    ensures relicSelected ==> r == DetectBattleState(s)
  {
    if s.battleButton then MainMenu
    else if !relicSelected && s.relicScreen then RelicSelection
    else if s.victory then Victory
    else if s.defeat then Defeat
    else InBattle
  }

  /** A battle's outcome as shown on a screenshot. */
  datatype Outcome = Won | Lost

  /** The outcome the first of polls 0..n-1 to show one shows; None when none does.
      `outcomeAt(k)` is what poll k shows. */
  function FirstOutcome(n: nat, outcomeAt: nat -> Option<Outcome>): Option<Outcome>
  {
    if n == 0 then None
    else if FirstOutcome(n - 1, outcomeAt).Some? then FirstOutcome(n - 1, outcomeAt)
    else outcomeAt(n - 1)
  }

  /** FirstOutcome is None exactly when no poll shows an outcome, and otherwise what the
      earliest poll that shows one shows. */
  lemma {:induction false} FirstOutcomeMeaning(n: nat, outcomeAt: nat -> Option<Outcome>)
    ensures FirstOutcome(n, outcomeAt).None? <==> forall k :: 0 <= k < n ==> outcomeAt(k).None?
    ensures FirstOutcome(n, outcomeAt).Some? ==>
              exists k :: 0 <= k < n && outcomeAt(k) == FirstOutcome(n, outcomeAt) &&
                forall j :: 0 <= j < k ==> outcomeAt(j).None?
  {
    if n > 0 {
      FirstOutcomeMeaning(n - 1, outcomeAt);
    }
  }

  /** Once an outcome has been seen, further polls do not change it. */
  lemma {:induction false} FirstOutcomeStays(m: nat, n: nat, outcomeAt: nat -> Option<Outcome>)
    requires m <= n && FirstOutcome(m, outcomeAt).Some?
    ensures FirstOutcome(n, outcomeAt) == FirstOutcome(m, outcomeAt)
    decreases n
  {
    if m < n {
      FirstOutcomeStays(m, n - 1, outcomeAt);
    }
  }

  /** Polls that show the same outcomes give the same first outcome. */
  lemma {:induction false} FirstOutcomeAgree(n: nat, f: nat -> Option<Outcome>, g: nat -> Option<Outcome>)
    requires forall k :: 0 <= k < n ==> f(k) == g(k)
    ensures FirstOutcome(n, f) == FirstOutcome(n, g)
  {
    if n > 0 {
      FirstOutcomeAgree(n - 1, f, g);
      assert f(n - 1) == g(n - 1);
    }
  }

  /** The polling loop of handle_battle_result: look at up to `polls` screens and stop at the
      first one that shows an outcome. */
  method PollOutcome(polls: nat, outcomeAt: nat -> Option<Outcome>) returns (r: Option<Outcome>)
    ensures r == FirstOutcome(polls, outcomeAt)
  {
    var k := 0;
    while k < polls
      invariant 0 <= k <= polls
      invariant FirstOutcome(k, outcomeAt).None?
    {
      var seen := outcomeAt(k);
      if seen.Some? {
        FirstOutcomeStays(k + 1, polls, outcomeAt);
        return seen;
      }
      k := k + 1;
    }
    return None;
  }

  /** A detected card: where it is and the number of its slot. */
  type CardPosition = (Point, int)

  /** The cards found in slots 1..n, in slot order. `slot(i)` is find_template on
      card_slot_i.png. */
  function FoundSlots(slot: int -> Option<Point>, n: nat): seq<CardPosition>
  {
    if n == 0 then []
    else FoundSlots(slot, n - 1) + (if slot(n).Some? then [(slot(n).value, n)] else [])
  }

  /** The slots are listed in strictly ascending order within 1..n, each with the position
      its template was found at, and every slot that was found is listed. */
  lemma FoundSlotsExact(slot: int -> Option<Point>, n: nat)
    ensures forall k :: 0 <= k < |FoundSlots(slot, n)| ==>
              1 <= FoundSlots(slot, n)[k].1 <= n && slot(FoundSlots(slot, n)[k].1) == Some(FoundSlots(slot, n)[k].0)
    ensures forall j, k :: 0 <= j < k < |FoundSlots(slot, n)| ==> FoundSlots(slot, n)[j].1 < FoundSlots(slot, n)[k].1
    ensures forall i :: 1 <= i <= n && slot(i).Some? ==> exists k :: 0 <= k < |FoundSlots(slot, n)| && FoundSlots(slot, n)[k].1 == i
  {
    FoundSlotsFound(slot, n);
    FoundSlotsAscending(slot, n);
    FoundSlotsComplete(slot, n);
  }

  /** Slot n adds its entry at the end, when it was found. */
  lemma FoundSlotsStep(slot: int -> Option<Point>, n: nat)
    requires n > 0
    ensures slot(n).Some? ==> FoundSlots(slot, n) == FoundSlots(slot, n - 1) + [(slot(n).value, n)]
    ensures slot(n).None? ==> FoundSlots(slot, n) == FoundSlots(slot, n - 1)
  {
  }

  lemma {:induction false} FoundSlotsFound(slot: int -> Option<Point>, n: nat)
    ensures forall k :: 0 <= k < |FoundSlots(slot, n)| ==>
              1 <= FoundSlots(slot, n)[k].1 <= n && slot(FoundSlots(slot, n)[k].1) == Some(FoundSlots(slot, n)[k].0)
  {
    if n > 0 {
      FoundSlotsFound(slot, n - 1);
      FoundSlotsStep(slot, n);
    }
  }

  lemma {:induction false} FoundSlotsAscending(slot: int -> Option<Point>, n: nat)
    ensures forall j, k :: 0 <= j < k < |FoundSlots(slot, n)| ==> FoundSlots(slot, n)[j].1 < FoundSlots(slot, n)[k].1
  {
    if n > 0 {
      FoundSlotsAscending(slot, n - 1);
      FoundSlotsFound(slot, n - 1);
      FoundSlotsStep(slot, n);
    }
  }

  lemma {:induction false} FoundSlotsComplete(slot: int -> Option<Point>, n: nat)
    ensures forall i :: 1 <= i <= n && slot(i).Some? ==> exists k :: 0 <= k < |FoundSlots(slot, n)| && FoundSlots(slot, n)[k].1 == i
  {
    if n > 0 {
      FoundSlotsComplete(slot, n - 1);
      FoundSlotsStep(slot, n);
      var prev := FoundSlots(slot, n - 1);
      forall i | 1 <= i <= n && slot(i).Some?
        ensures exists k :: 0 <= k < |FoundSlots(slot, n)| && FoundSlots(slot, n)[k].1 == i
      {
        if i < n {
          var k :| 0 <= k < |prev| && prev[k].1 == i;
          assert FoundSlots(slot, n)[k] == prev[k];
        } else {
          assert FoundSlots(slot, n)[|prev|].1 == n;
        }
      }
    }
  }

  /** detect_card_positions: try slots 1 to 4 in turn and keep the ones found. */
  method ScanCardSlots(slot: int -> Option<Point>) returns (positions: seq<CardPosition>)
    ensures positions == FoundSlots(slot, 4)
  {
    positions := [];
    for i := 1 to 5
      invariant positions == FoundSlots(slot, i - 1)
    {
      var position := slot(i);
      if position.Some? {
        positions := positions + [(position.value, i)];
      }
    }
  }

  /** The position of the first listed card of the given slot, None when no entry has it. */
  function FindCard(positions: seq<CardPosition>, index: int): (r: Option<Point>)
    ensures r.None? <==> forall k :: 0 <= k < |positions| ==> positions[k].1 != index
    ensures r.Some? ==> exists k :: 0 <= k < |positions| && positions[k] == (r.value, index) &&
                          forall j :: 0 <= j < k ==> positions[j].1 != index
  {
    if positions == [] then None
    else if positions[0].1 == index then Some(positions[0].0)
    else
      var rest := FindCard(positions[1..], index);
      assert rest.Some? ==> exists k :: 0 <= k < |positions[1..]| && positions[1..][k] == (rest.value, index) &&
                              forall j :: 0 <= j < k ==> positions[1..][j].1 != index;
      assert rest.Some? ==> exists k :: 1 <= k < |positions| && positions[k] == (rest.value, index) &&
                              forall j :: 0 <= j < k ==> positions[j].1 != index;
      rest
  }

  /** The lookup loop of play_card: walk the detected cards and stop at the first entry of the
      requested slot. */
  method LookupCard(positions: seq<CardPosition>, index: int) returns (r: Option<Point>)
    ensures r == FindCard(positions, index)
  {
    var k := 0;
    while k < |positions|
      invariant 0 <= k <= |positions|
      invariant FindCard(positions, index) == FindCard(positions[k..], index)
    {
      var (position, i) := positions[k];
      if i == index {
        return Some(position);
      }
      assert positions[k..][1..] == positions[k + 1..];
      k := k + 1;
    }
    return None;
  }

  /** Looking a slot up in a list with a tail appended finds it in the head when it is there. */
  lemma {:induction false} FindCardAppend(a: seq<CardPosition>, b: seq<CardPosition>, index: int)
    ensures FindCard(a + b, index) == if FindCard(a, index).Some? then FindCard(a, index) else FindCard(b, index)
  {
    if a != [] {
      assert (a + b)[1..] == a[1..] + b;
      FindCardAppend(a[1..], b, index);
    } else {
      assert a + b == b;
    }
  }

  /** Looking up a slot among the detected cards gives exactly what the scan found for that
      slot, and nothing for a number outside 1..n. */
  lemma {:induction false} FindFoundSlot(slot: int -> Option<Point>, n: nat, index: int)
    ensures FindCard(FoundSlots(slot, n), index) == if 1 <= index <= n then slot(index) else None
  {
    if n > 0 {
      FindFoundSlot(slot, n - 1, index);
      var tail := if slot(n).Some? then [(slot(n).value, n)] else [];
      FindCardAppend(FoundSlots(slot, n - 1), tail, index);
    }
  }
}
