/** The template tool of the card-battle bot: its nineteen required templates, and the run
    that captures every missing one. */
module CardBattleTemplates {
  import opened Basics
  import opened TemplateBase

  /** The nineteen templates the tool requires, in its own order. */
  function RequiredTemplates(): (r: seq<string>)
    ensures |r| == 19
    ensures forall i, j :: 0 <= i < j < |r| ==> r[i] != r[j]
  {
    ["battle_button.png", "confirm_battle.png", "victory_screen.png", "defeat_screen.png",
     "ok_button.png", "card_slot_1.png", "card_slot_2.png", "card_slot_3.png", "card_slot_4.png",
     "energy_full.png", "enemy_tower.png", "ally_tower.png", "upgrade_population.png",
     "refresh_cards.png", "same_card.png", "buy_card.png", "gold_coin.png", "refresh_cost.png",
     "population.png"]
  }

  /** check_existing_templates over the nineteen names. */
  method CheckExistingTemplates(present: set<string>) returns (existing: seq<string>, missing: seq<string>)
    ensures existing == Present(RequiredTemplates(), present)
    ensures missing == Absent(RequiredTemplates(), present)
    ensures |existing| + |missing| == 19
  {
    existing, missing := TemplateBase.CheckExistingTemplates(RequiredTemplates(), present);
    PartitionComplete(RequiredTemplates(), present);
  }

  /** create_templates: nothing is captured when nothing is missing; otherwise each missing
      template is captured once, in list order, capture k using the selection `sels(k)`. A
      failed capture is reported and the run goes on. Afterwards every template whose
      selection was valid exists, and nothing but required templates was added. */
  method CreateTemplates(present: set<string>, sels: nat -> Selection)
    returns (after: set<string>, attempted: seq<string>)
    ensures attempted == Absent(RequiredTemplates(), present)
    ensures Absent(RequiredTemplates(), present) == [] ==> after == present
    ensures after == CapturedAll(present, attempted, sels)
    ensures present <= after
    ensures forall t :: t in after ==> t in present || t in RequiredTemplates()
    ensures forall k :: 0 <= k < |attempted| && CaptureRegion(sels(k).start, sels(k).end).Some? ==>
              attempted[k] in after
  {
    var existing, missing := CheckExistingTemplates(present);
    CapturedAllBounds(present, missing, sels);
    forall t | t in missing
      ensures t in RequiredTemplates()
    {
      Membership(RequiredTemplates(), present, t);
    }
    if missing == [] {
      return present, missing;
    }
    after, attempted := CaptureEach(missing, present, sels);
  }
}
