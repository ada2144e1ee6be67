/** The template tool of the auto-chess bot: its twelve required templates and its menu,
    which creates the missing templates, re-creates a chosen one, or tests a chosen one, and
    after every capture takes the inventory again. */
module CreateTemplates {
  import opened Basics
  import opened TemplateBase

  /** The twelve templates the tool requires, in its own order. */
  function RequiredTemplates(): (r: seq<string>)
    ensures |r| == 12
    ensures forall i, j :: 0 <= i < j < |r| ==> r[i] != r[j]
  {
    ["battle_button.png", "confirm_battle.png", "victory_screen.png", "defeat_screen.png",
     "ok_button.png", "card_slot_1.png", "card_slot_2.png", "card_slot_3.png", "card_slot_4.png",
     "energy_full.png", "enemy_tower.png", "ally_tower.png"]
  }

  /** check_existing_templates over the twelve names. */
  method CheckExistingTemplates(present: set<string>) returns (existing: seq<string>, missing: seq<string>)
    ensures existing == Present(RequiredTemplates(), present)
    ensures missing == Absent(RequiredTemplates(), present)
    ensures |existing| + |missing| == 12
  {
    existing, missing := TemplateBase.CheckExistingTemplates(RequiredTemplates(), present);
    PartitionComplete(RequiredTemplates(), present);
  }

  /** One answer at the menu, with what the user then enters: option 1 with a selection for
      each capture in turn; option 2 and option 3 with the typed template number (and what
      int() makes of it) and, for option 2, the selection; option 4, option 0, or anything
      else. */
  datatype Command =
    | CreateMissing(sels: nat -> Selection)
    | Recapture(answer: string, parsed: Option<int>, sel: Selection)
    | Test(answer: string, parsed: Option<int>)
    | AdjustConfidence
    | Quit
    | Invalid

  /** What the menu did with a template. */
  datatype Event = Captured(name: string) | Tested(name: string)

  /** The events of capturing each of `names`. */
  function CaptureEvents(names: seq<string>): (r: seq<Event>)
    ensures |r| == |names| && forall k :: 0 <= k < |names| ==> r[k] == Captured(names[k])
  {
    if names == [] then [] else [Captured(names[0])] + CaptureEvents(names[1..])
  }

  /** What one pass of the menu loop does on the directory `present`: option 1 captures each
      missing template in turn; option 2 re-captures the required template picked; option 3
      tests the existing template picked and changes nothing; the other answers do nothing. */
  predicate StepOutcome(c: Command, present: set<string>, after: set<string>, events: seq<Event>)
  {
    && (c.CreateMissing? ==>
          var missing := Absent(RequiredTemplates(), present);
          events == CaptureEvents(missing) && after == CapturedAll(present, missing, c.sels))
    && (c.Recapture? ==>
          var pick := PickIndex(c.answer, c.parsed, |RequiredTemplates()|);
          if pick.Chosen? then
            events == [Captured(RequiredTemplates()[pick.index])] &&
            after == AfterCapture(present, RequiredTemplates()[pick.index], c.sel)
          else events == [] && after == present)
    && (c.Test? ==>
          var existing := Present(RequiredTemplates(), present);
          var pick := PickIndex(c.answer, c.parsed, |existing|);
          after == present &&
          events == (if existing != [] && pick.Chosen? then [Tested(existing[pick.index])] else []))
    && (!c.CreateMissing? && !c.Recapture? && !c.Test? ==> events == [] && after == present)
  }

  /** One pass of the menu loop. Option 1 with nothing missing captures nothing. */
  method Step(c: Command, present: set<string>) returns (after: set<string>, events: seq<Event>, quit: bool)
    ensures quit <==> c.Quit?
    ensures present <= after
    ensures StepOutcome(c, present, after, events)
    ensures c.CreateMissing? && Absent(RequiredTemplates(), present) == [] ==> events == [] && after == present
  {
    after, events, quit := present, [], false;
    var existing, missing := CheckExistingTemplates(present);
    match c
    case CreateMissing(sels) =>
      if missing != [] {
        var attempted;
        after, attempted := CaptureEach(missing, present, sels);
        events := CaptureEvents(attempted);
        CapturedAllBounds(present, missing, sels);
      }
    case Recapture(answer, parsed, sel) =>
      var all := RequiredTemplates();
      var pick := PickIndex(answer, parsed, |all|);
      if pick.Chosen? {
        after := AfterCapture(present, all[pick.index], sel);
        events := [Captured(all[pick.index])];
      }
    case Test(answer, parsed) =>
      if existing != [] {
        var pick := PickIndex(answer, parsed, |existing|);
        if pick.Chosen? {
          events := [Tested(existing[pick.index])];
        }
      }
    case AdjustConfidence =>
    case Quit =>
      quit := true;
    case Invalid =>
  }

  /** main: take the inventory, then run the menu until option 0 (or until the answers run
      out). The lists the menu shows always match the directory: every capture is followed
      by a new inventory. Files are only added; everything captured is a required template,
      and everything tested is a required template whose file exists. */
  method Menu(present0: set<string>, commands: seq<Command>)
    returns (present: set<string>, existing: seq<string>, missing: seq<string>, events: seq<Event>)
    ensures existing == Present(RequiredTemplates(), present)
    ensures missing == Absent(RequiredTemplates(), present)
    ensures present0 <= present
    ensures forall t :: t in present ==> t in present0 || t in RequiredTemplates()
    ensures forall k :: 0 <= k < |events| ==> events[k].name in RequiredTemplates()
    ensures forall k :: 0 <= k < |events| && events[k].Tested? ==> events[k].name in present
  {
    present, events := present0, [];
    existing, missing := CheckExistingTemplates(present);
    var i := 0;
    while i < |commands|
      invariant 0 <= i <= |commands|
      invariant existing == Present(RequiredTemplates(), present)
      invariant missing == Absent(RequiredTemplates(), present)
      invariant present0 <= present
      invariant forall t :: t in present ==> t in present0 || t in RequiredTemplates()
      invariant forall k :: 0 <= k < |events| ==> events[k].name in RequiredTemplates()
      invariant forall k :: 0 <= k < |events| && events[k].Tested? ==> events[k].name in present
    {
      var after, stepEvents, quit := Step(commands[i], present);
      if quit {
        break;
      }
      StepStaysInside(commands[i], present, after, stepEvents);
      present := after;
      events := events + stepEvents;
      existing, missing := CheckExistingTemplates(present);
      i := i + 1;
    }
  }

  /** What one step adds to the directory and to the events stays among the required
      templates, and a tested template is one whose file exists. */
  lemma StepStaysInside(c: Command, present: set<string>, after: set<string>, events: seq<Event>)
    requires present <= after && StepOutcome(c, present, after, events)
    ensures forall t :: t in after ==> t in present || t in RequiredTemplates()
    ensures forall k :: 0 <= k < |events| ==> events[k].name in RequiredTemplates()
    ensures forall k :: 0 <= k < |events| && events[k].Tested? ==> events[k].name in after
  {
    var required := RequiredTemplates();
    if c.CreateMissing? {
      var missing := Absent(required, present);
      CapturedAllBounds(present, missing, c.sels);
      forall t | t in missing
        ensures t in required
      {
        Membership(required, present, t);
      }
    } else if c.Test? {
      var existing := Present(required, present);
      if |events| > 0 {
        Membership(required, present, events[0].name);
      }
    }
  }
}
