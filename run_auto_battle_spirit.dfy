/** The launcher of the spirit bot: the fourteen templates it checks for, the gate that stops
    while one of them is missing, the check for a game window before a battle loop, and the
    menu of templates to test. */
module RunAutoBattleSpirit {
  import opened Basics
  import opened TemplateBase

  /** The fourteen templates the launcher checks for, in its own order. */
  function RequiredTemplates(): (r: seq<string>)
    ensures |r| == 14
    ensures forall i, j :: 0 <= i < j < |r| ==> r[i] != r[j]
  {
    ["battle_button.png", "confirm_battle.png", "victory_screen.png", "defeat_screen.png",
     "ok_button.png", "card_slot_1.png", "card_slot_2.png", "card_slot_3.png", "card_slot_4.png",
     "energy_full.png", "gold_coin.png", "refresh_cost.png", "population.png", "buy_card.png"]
  }

  /** check_templates: the required templates whose file is absent, in list order. */
  method CheckTemplates(present: set<string>) returns (missing: seq<string>)
    ensures missing == Absent(RequiredTemplates(), present)
    ensures IsSubsequence(missing, RequiredTemplates())
    ensures forall t :: t in missing <==> t in RequiredTemplates() && t !in present
    ensures missing == [] <==> forall t :: t in RequiredTemplates() ==> t in present
  {
    missing := ListMissing(RequiredTemplates(), present);
    OrderPreserved(RequiredTemplates(), present);
    NoneMissingIff(RequiredTemplates(), present);
    forall t
      ensures t in missing <==> t in RequiredTemplates() && t !in present
    {
      Membership(RequiredTemplates(), present, t);
    }
  }

  /** The template menu's choices: '1' to '6' name six of the required templates. */
  const TemplateMap: map<string, string> :=
    map["1" := "battle_button.png", "2" := "confirm_battle.png", "3" := "victory_screen.png",
        "4" := "defeat_screen.png", "5" := "ok_button.png", "6" := "card_slot_1.png"]

  /** The template a test choice names; None (and no recognition attempt) for any other
      choice. */
  function TemplateFor(choice: string): (r: Option<string>)
    ensures r.Some? <==> choice in {"1", "2", "3", "4", "5", "6"}
    ensures r.Some? ==> r.value in RequiredTemplates()
  {
    if choice in TemplateMap then Some(TemplateMap[choice]) else None
  }

  /** How option 1 of main goes on: it stops listing the missing templates, stops for want of
      a game window, or runs the battle loop. */
  datatype Launch = MissingTemplates(names: seq<string>) | NoWindow | RunBattles

  /** main, option 1: with a template missing it returns before any battle; without a usable
      window handle (none, or 0) it runs no battle loop. */
  method StartAutoBattle(present: set<string>, hwnd: Option<int>) returns (launch: Launch)
    ensures launch.MissingTemplates? <==> exists t :: t in RequiredTemplates() && t !in present
    ensures launch.MissingTemplates? ==> launch.names == Absent(RequiredTemplates(), present)
    ensures launch == RunBattles <==> (forall t :: t in RequiredTemplates() ==> t in present) &&
                                      hwnd.Some? && hwnd.value != 0
  {
    var missing := CheckTemplates(present);
    if missing != [] {
      return MissingTemplates(missing);
    }
    if hwnd.None? || hwnd.value == 0 {
      return NoWindow;
    }
    return RunBattles;
  }
}
