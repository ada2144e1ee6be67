/** The AutoGame base: locating a template on the screen, clicking with a random offset,
    clicking a located template, polling for a template, and the base battle loop.
    The screenshot and the matcher are inputs: what is known about the template file and
    the best match the matcher reports. Match scores and confidence thresholds are on one
    integer scale (the source's floats scaled by a common factor). */
module AutoGame {
  import opened Basics

  /** What find_template learns about a template file. */
  datatype TemplateImage = NoFile | Unreadable | Loaded(w: nat, h: nat)

  /** The best match the matcher reports: its score and the top-left corner where it lies. */
  datatype Match = Match(maxVal: int, maxLoc: Point)

  /** find_template: the centre of the best match when its score reaches the threshold.
      A missing or unreadable file gives None; no threshold given means the bot's own. */
  function FindTemplate(image: TemplateImage, best: Match, confidence: Option<int>, selfConfidence: int)
    : (r: Option<Point>)
    ensures !image.Loaded? ==> r == None
    ensures image.Loaded? && confidence.None? ==> (r.Some? <==> best.maxVal >= selfConfidence)
    ensures image.Loaded? && confidence.Some? ==> (r.Some? <==> best.maxVal >= confidence.value)
    ensures r.Some? ==> r.value == Point(best.maxLoc.x + image.w / 2, best.maxLoc.y + image.h / 2)
    ensures r.Some? && image.w > 0 && image.h > 0 ==>
              Inside(r.value, Rect(best.maxLoc.x, best.maxLoc.y, image.w, image.h))
  {
    var threshold := if confidence.None? then selfConfidence else confidence.value;
    match image
    case NoFile => None
    case Unreadable => None
    case Loaded(w, h) =>
      if best.maxVal >= threshold then Some(Point(best.maxLoc.x + w / 2, best.maxLoc.y + h / 2))
      else None
  }

  /** A match found at some threshold is also found, at the same place, at any lower one. */
  lemma LowerThresholdStillFinds(image: TemplateImage, best: Match, c: int, c': int, selfConfidence: int)
    requires c' <= c
    requires FindTemplate(image, best, Some(c), selfConfidence).Some?
    ensures FindTemplate(image, best, Some(c'), selfConfidence) == FindTemplate(image, best, Some(c), selfConfidence)
  {
  }

  /** click: the point actually clicked, or None when there is no position (click returns
      False). `dx` and `dy` are the two random offsets drawn when `randomOffset` is positive. */
  function Click(position: Option<Point>, randomOffset: int, dx: int, dy: int): (r: Option<Point>)
    requires randomOffset > 0 ==> -randomOffset <= dx <= randomOffset && -randomOffset <= dy <= randomOffset
    ensures r.Some? <==> position.Some?
    ensures r.Some? && randomOffset > 0 ==>
              position.value.x - randomOffset <= r.value.x <= position.value.x + randomOffset &&
              position.value.y - randomOffset <= r.value.y <= position.value.y + randomOffset
    ensures position.Some? && randomOffset <= 0 ==> r == position
  {
    match position
    case None => None
    case Some(p) =>
      if randomOffset > 0 then Some(Point(p.x + dx, p.y + dy)) else Some(p)
  }

  /** click_template: locate, then click; it succeeds iff the template is found. */
  function ClickTemplate(image: TemplateImage, best: Match, confidence: Option<int>, selfConfidence: int,
                         randomOffset: int, dx: int, dy: int): (r: Option<Point>)
    requires randomOffset > 0 ==> -randomOffset <= dx <= randomOffset && -randomOffset <= dy <= randomOffset
    ensures r.Some? <==> FindTemplate(image, best, confidence, selfConfidence).Some?
  {
    Click(FindTemplate(image, best, confidence, selfConfidence), randomOffset, dx, dy)
  }

  /** wait_for_template: poll until a poll finds the template or the time allowed runs out.
      `polls` is how many polls fit in the waiting time; `look(k)` is what poll k finds. */
  method WaitForTemplate(polls: nat, look: nat -> Option<Point>) returns (r: Option<Point>)
    ensures r.Some? ==> exists k :: 0 <= k < polls && look(k) == r && forall j :: 0 <= j < k ==> look(j).None?
    ensures r.None? ==> forall k :: 0 <= k < polls ==> look(k).None?
  {
    var k := 0;
    while k < polls
      invariant 0 <= k <= polls
      invariant forall j :: 0 <= j < k ==> look(j).None?
    {
      var position := look(k);
      if position.Some? {
        return position;
      }
      k := k + 1;
    }
    return None;
  }

  /** The number of start attempts among the first `n` that succeeded. */
  function CountStarted(started: nat -> bool, n: nat): nat
  {
    if n == 0 then 0 else CountStarted(started, n - 1) + (if started(n - 1) then 1 else 0)
  }

  /** More attempts never count fewer successful starts. */
  lemma {:induction false} CountStartedGrows(started: nat -> bool, a: nat, b: nat)
    requires a <= b
    ensures CountStarted(started, a) <= CountStarted(started, b)
    decreases b
  {
    if a < b {
      CountStartedGrows(started, a, b - 1);
    }
  }

  /** The base auto_battle_loop: a battle is counted only after a successful start, and the
      loop stops once `numBattles` battles are done. The source retries a failed start
      forever; `fuel` bounds the number of start attempts. `started(k)` is the outcome of
      attempt k. */
  method AutoBattleLoop(numBattles: int, fuel: nat, started: nat -> bool)
    returns (completed: nat, attempts: nat)
    ensures attempts <= fuel
    ensures completed == CountStarted(started, attempts)
    ensures completed <= Max(0, numBattles)
    ensures attempts < fuel ==> completed == Max(0, numBattles)
    ensures numBattles <= 0 ==> attempts == 0
    ensures forall k :: 0 <= k < attempts ==> CountStarted(started, k) < numBattles
  {
    completed, attempts := 0, 0;
    while completed < numBattles && attempts < fuel
      invariant attempts <= fuel
      invariant completed == CountStarted(started, attempts)
      invariant completed <= Max(0, numBattles)
      invariant numBattles <= 0 ==> attempts == 0
      invariant attempts > 0 ==> CountStarted(started, attempts - 1) < numBattles
    {
      if started(attempts) {
        completed := completed + 1;
      }
      attempts := attempts + 1;
    }
    forall k | 0 <= k < attempts
      ensures CountStarted(started, k) < numBattles
    {
      CountStartedGrows(started, k, attempts - 1);
    }
  }
}
