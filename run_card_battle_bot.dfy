/** The launcher of the card-battle bot: the fifteen templates it checks for, and the gate
    that stops before any bot is created while one of them is missing. */
module RunCardBattleBot {
  import opened Basics
  import opened TemplateBase

  /** The fifteen templates the launcher checks for, in its own order. */
  function RequiredTemplates(): (r: seq<string>)
    ensures |r| == 15
    ensures forall i, j :: 0 <= i < j < |r| ==> r[i] != r[j]
  {
    ["battle_button.png", "confirm_battle.png", "victory_screen.png", "defeat_screen.png",
     "ok_button.png", "card_slot_1.png", "card_slot_2.png", "card_slot_3.png", "card_slot_4.png",
     "energy_full.png", "enemy_tower.png", "ally_tower.png", "upgrade_population.png",
     "refresh_cards.png", "same_card.png"]
  }

  /** check_templates: the required templates whose file is absent, in list order; empty
      exactly when every file exists. */
  method CheckTemplates(present: set<string>) returns (missing: seq<string>)
    ensures missing == Absent(RequiredTemplates(), present)
    ensures IsSubsequence(missing, RequiredTemplates())
    ensures forall t :: t in missing <==> t in RequiredTemplates() && t !in present
    ensures missing == [] <==> forall t :: t in RequiredTemplates() ==> t in present
  {
    missing := ListMissing(RequiredTemplates(), present);
    OrderPreserved(RequiredTemplates(), present);
    NoneMissingIff(RequiredTemplates(), present);
    forall t
      ensures t in missing <==> t in RequiredTemplates() && t !in present
    {
      Membership(RequiredTemplates(), present, t);
    }
  }

  /** How main goes on: it stops listing the missing templates, or shows its menu. */
  datatype Launch = MissingTemplates(names: seq<string>) | ShowMenu

  /** main up to its menu: with a template missing it lists them and returns before any bot
      is created. */
  method LaunchMenu(present: set<string>) returns (launch: Launch)
    ensures launch == ShowMenu <==> forall t :: t in RequiredTemplates() ==> t in present
    ensures launch.MissingTemplates? ==> launch.names == Absent(RequiredTemplates(), present) && launch.names != []
  {
    var missing := CheckTemplates(present);
    if missing != [] {
      return MissingTemplates(missing);
    }
    return ShowMenu;
  }
}
