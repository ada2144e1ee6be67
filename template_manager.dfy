/** The template manager tool: its nine required templates, the inventory of the template
    directory, the rectangle drawn around a recognised template, and the choice of a
    template whose recognition is to be tried at another confidence. */
module TemplateManager {
  import opened Basics
  import opened TemplateBase
  import AutoGame

  /** The nine templates the manager requires, in its own order. */
  function RequiredTemplates(): (r: seq<string>)
    ensures |r| == 9
    ensures forall i, j :: 0 <= i < j < |r| ==> r[i] != r[j]
  {
    ["battle_button.png", "confirm_battle.png", "victory_screen.png", "defeat_screen.png",
     "ok_button.png", "card_slot_1.png", "card_slot_2.png", "card_slot_3.png", "card_slot_4.png"]
  }

  /** check_existing_templates over the nine names. */
  method CheckExistingTemplates(present: set<string>) returns (existing: seq<string>, missing: seq<string>)
    ensures existing == Present(RequiredTemplates(), present)
    ensures missing == Absent(RequiredTemplates(), present)
    ensures |existing| + |missing| == 9
  {
    existing, missing := TemplateBase.CheckExistingTemplates(RequiredTemplates(), present);
    PartitionComplete(RequiredTemplates(), present);
  }

  /** The rectangle test_template draws around a recognised template of size w x h found at
      `position`: from (x - w/2, y - h/2) to (x + w/2, y + h/2). */
  function HighlightRect(position: Point, w: nat, h: nat): (r: (Point, Point))
    ensures r.0.x <= position.x <= r.1.x && r.0.y <= position.y <= r.1.y
    ensures r.1.x - r.0.x == 2 * (w / 2) && r.1.y - r.0.y == 2 * (h / 2)
  {
    (Point(position.x - w / 2, position.y - h / 2), Point(position.x + w / 2, position.y + h / 2))
  }

  /** Drawn around a position find_template reports, the rectangle starts at the corner of the
      best match and covers the template, short by one pixel in a dimension of odd size. */
  lemma HighlightFramesMatch(w: nat, h: nat, best: AutoGame.Match, confidence: Option<int>, selfConfidence: int)
    requires AutoGame.FindTemplate(AutoGame.Loaded(w, h), best, confidence, selfConfidence).Some?
    ensures var r := HighlightRect(AutoGame.FindTemplate(AutoGame.Loaded(w, h), best, confidence, selfConfidence).value, w, h);
            r.0 == best.maxLoc && r.1.x == best.maxLoc.x + 2 * (w / 2) && r.1.y == best.maxLoc.y + 2 * (h / 2)
  {
  }

  /** The outcome of adjust_template_confidence's template choice: no template to test, or
      the pick among the existing templates, with the template it names when accepted. */
  datatype TestChoice = NoTemplates | Picked(pick: Pick, name: Option<string>)

  /** adjust_template_confidence up to the confidence prompt: with no existing template it
      returns at once; otherwise the answer picks one of the existing templates. */
  method ChooseTemplateToTest(present: set<string>, answer: string, parsed: Option<int>)
    returns (choice: TestChoice)
    ensures Present(RequiredTemplates(), present) == [] <==> choice == NoTemplates
    ensures choice.Picked? ==> choice.pick == PickIndex(answer, parsed, |Present(RequiredTemplates(), present)|)
    ensures choice.Picked? ==> (choice.name.Some? <==> choice.pick.Chosen?)
    ensures choice.Picked? && choice.name.Some? ==>
              choice.name.value == Present(RequiredTemplates(), present)[choice.pick.index] &&
              choice.name.value in present && choice.name.value in RequiredTemplates()
  {
    var existing, missing := CheckExistingTemplates(present);
    if existing == [] {
      return NoTemplates;
    }
    var pick := PickIndex(answer, parsed, |existing|);
    if pick.Chosen? {
      Membership(RequiredTemplates(), present, existing[pick.index]);
      return Picked(pick, Some(existing[pick.index]));
    }
    return Picked(pick, None);
  }
}
