/** The template wizard of the auto-chess bot: its twelve required templates, and the wizard
    that captures the missing ones while the user keeps answering yes. */
module TemplateCreator {
  import opened Basics
  import opened TemplateBase

  /** The twelve templates the wizard requires, in its own order. */
  function RequiredTemplates(): (r: seq<string>)
    ensures |r| == 12
    ensures forall i, j :: 0 <= i < j < |r| ==> r[i] != r[j]
  {
    ["battle_button.png", "confirm_battle.png", "victory_screen.png", "defeat_screen.png",
     "ok_button.png", "card_slot_1.png", "card_slot_2.png", "card_slot_3.png", "card_slot_4.png",
     "energy_full.png", "enemy_tower.png", "ally_tower.png"]
  }

  /** check_existing_templates over the twelve names. */
  method CheckExistingTemplates(present: set<string>) returns (existing: seq<string>, missing: seq<string>)
    ensures existing == Present(RequiredTemplates(), present)
    ensures missing == Absent(RequiredTemplates(), present)
    ensures |existing| + |missing| == 12
  {
    existing, missing := TemplateBase.CheckExistingTemplates(RequiredTemplates(), present);
    PartitionComplete(RequiredTemplates(), present);
  }

  /** The capture loop: capture the names in order, asking after each capture whether to go
      on (`goOn(k)` is whether the answer after capture k was 'y'), and stop at the first no. */
  method CaptureWhileYes(names: seq<string>, present: set<string>, sels: nat -> Selection, goOn: nat -> bool)
    returns (after: set<string>, attempted: seq<string>)
    ensures |attempted| <= |names| && attempted == names[..|attempted|]
    ensures forall k :: 0 <= k < |attempted| - 1 ==> goOn(k)
    ensures |attempted| < |names| ==> |attempted| > 0 && !goOn(|attempted| - 1)
    ensures after == CapturedAll(present, attempted, sels)
  {
    after, attempted := present, [];
    var k := 0;
    while k < |names|
      invariant 0 <= k <= |names| && attempted == names[..k]
      invariant forall j :: 0 <= j < k ==> goOn(j)
      invariant after == CapturedAll(present, attempted, sels)
    {
      assert names[..k + 1][..k] == names[..k];
      after := AfterCapture(after, names[k], sels(k));
      attempted := attempted + [names[k]];
      if !goOn(k) {
        return;
      }
      k := k + 1;
    }
  }

  /** How the wizard ends: at once when nothing is missing, when the user declines to start,
      or after the capture loop with the inventory taken again. */
  datatype Outcome = NothingMissing | Declined | Done(attempted: seq<string>, stillMissing: seq<string>)

  /** main: exit when nothing is missing or when the first answer is not 'y'; otherwise
      capture the missing templates in order until the user stops, then list what is still
      missing. */
  method Wizard(present: set<string>, start: bool, sels: nat -> Selection, goOn: nat -> bool)
    returns (after: set<string>, outcome: Outcome)
    ensures Absent(RequiredTemplates(), present) == [] <==> outcome == NothingMissing
    ensures outcome == Declined <==> Absent(RequiredTemplates(), present) != [] && !start
    ensures !outcome.Done? ==> after == present
    ensures outcome.Done? ==>
              var missing := Absent(RequiredTemplates(), present);
              0 < |outcome.attempted| <= |missing| && outcome.attempted == missing[..|outcome.attempted|] &&
              (forall k :: 0 <= k < |outcome.attempted| - 1 ==> goOn(k)) &&
              (|outcome.attempted| < |missing| ==> !goOn(|outcome.attempted| - 1)) &&
              after == CapturedAll(present, outcome.attempted, sels) &&
              outcome.stillMissing == Absent(RequiredTemplates(), after)
  {
    var existing, missing := CheckExistingTemplates(present);
    if missing == [] {
      return present, NothingMissing;
    }
    if !start {
      return present, Declined;
    }
    var attempted;
    after, attempted := CaptureWhileYes(missing, present, sels, goOn);
    var existingAfter, missingAfter := CheckExistingTemplates(after);
    outcome := Done(attempted, missingAfter);
  }
}
