/** The map-search tool for wild troops: the menu choices that pick the target templates and
    the search, the drag each direction performs, the square-spiral walk (runs of 1, 1, 2, 2,
    3, 3, ... drags turning right, down, left, up), and the two searches that look for a
    target on each screen before dragging the map on. Template matching is an input:
    `look(i)(t)` is what find_template reports for template `t` on the i-th screen. */
module FindTroops {
  import opened Basics

  datatype Direction = Right | Down | Left | Up

  /** The spiral's turning order. */
  const Directions: seq<Direction> := [Right, Down, Left, Up]

  /** Pixels moved by one drag. */
  const DragDistance: int := 300

  /** The middle of a screen of the given size. */
  function ScreenCenter(screenWidth: nat, screenHeight: nat): Point
  {
    Point(screenWidth / 2, screenHeight / 2)
  }

  /** The drag the spiral search performs for a direction. */
  function SpiralDrag(c: Point, d: Direction): (r: Drag)
    ensures r.start.x + r.end.x == 2 * c.x && r.start.y + r.end.y == 2 * c.y
    ensures d == Right ==> r.start.y == r.end.y == c.y && r.end.x - r.start.x == 300
    ensures d == Left ==> r.start.y == r.end.y == c.y && r.start.x - r.end.x == 300
    ensures d == Down ==> r.start.x == r.end.x == c.x && r.end.y - r.start.y == 300
    ensures d == Up ==> r.start.x == r.end.x == c.x && r.start.y - r.end.y == 300
  {
    var half := DragDistance / 2;
    match d
    case Right => Drag(Point(c.x - half, c.y), Point(c.x + half, c.y))
    case Down => Drag(Point(c.x, c.y - half), Point(c.x, c.y + half))
    case Left => Drag(Point(c.x + half, c.y), Point(c.x - half, c.y))
    case Up => Drag(Point(c.x, c.y + half), Point(c.x, c.y - half))
  }

  /** The drag the directional search performs for a direction. */
  function DirectionalDrag(c: Point, d: Direction): Drag
  {
    var half := DragDistance / 2;
    match d
    case Up => Drag(Point(c.x, c.y - half), Point(c.x, c.y + half))
    case Down => Drag(Point(c.x, c.y + half), Point(c.x, c.y - half))
    case Left => Drag(Point(c.x - half, c.y), Point(c.x + half, c.y))
    case Right => Drag(Point(c.x + half, c.y), Point(c.x - half, c.y))
  }

  /** The two searches name directions oppositely: every directional drag is the spiral
      drag of the same name run backwards, so it too moves exactly 300 pixels along one axis,
      symmetric about the centre. */
  lemma DirectionalIsReversedSpiral(c: Point, d: Direction)
    ensures DirectionalDrag(c, d) == Drag(SpiralDrag(c, d).end, SpiralDrag(c, d).start)
  {
  }

  /** The spiral search's local state. */
  datatype SpiralState = SpiralState(directionIndex: int, stepsTaken: int, stepsPerSide: int, sideChanges: int)

  const SpiralStart: SpiralState := SpiralState(0, 0, 1, 0)

  predicate SpiralInvariant(s: SpiralState)
  {
    0 <= s.directionIndex < 4 && 0 <= s.stepsTaken < s.stepsPerSide &&
    0 <= s.sideChanges <= 1 && s.stepsPerSide >= 1
  }

  /** The state update after one drag: count the step; at the end of a side turn to the
      next direction; after every second turn make the sides one drag longer. */
  function Advance(s: SpiralState): (r: SpiralState)
    ensures SpiralInvariant(s) ==> SpiralInvariant(r)
  {
    var taken := s.stepsTaken + 1;
    if taken == s.stepsPerSide then
      var changes := s.sideChanges + 1;
      if changes == 2 then SpiralState((s.directionIndex + 1) % 4, 0, s.stepsPerSide + 1, 0)
      else SpiralState((s.directionIndex + 1) % 4, 0, s.stepsPerSide, changes)
    else SpiralState(s.directionIndex, taken, s.stepsPerSide, s.sideChanges)
  }

  /** The state before drag number n (counting from 0). */
  function StateAfter(n: nat): (r: SpiralState)
    ensures SpiralInvariant(r)
  {
    if n == 0 then SpiralStart else Advance(StateAfter(n - 1))
  }

  /** The direction of drag number n. */
  function SpiralDirection(n: nat): Direction
  {
    Directions[StateAfter(n).directionIndex]
  }

  /** The length of side c of the spiral (counting sides from 0): 1, 1, 2, 2, 3, 3, ... */
  function SideLength(c: nat): (r: nat)
    ensures r >= 1
  {
    if c == 0 then 1 else SideLength(c - 1) + SideParity(c - 1)
  }

  /** The number of turns since the sides last grew, when side c starts: 0, 1, 0, 1, ... */
  function SideParity(c: nat): (r: int)
    ensures r == 0 || r == 1
  {
    if c == 0 then 0 else 1 - SideParity(c - 1)
  }

  /** The direction index of side c: 0, 1, 2, 3, 0, ... */
  function SideDirectionIndex(c: nat): int
  {
    if c == 0 then 0 else (SideDirectionIndex(c - 1) + 1) % 4
  }

  /** In closed form: side c has direction index c mod 4, parity c mod 2 and length c/2 + 1. */
  lemma {:induction false} SideClosedForm(c: nat)
    ensures SideDirectionIndex(c) == c % 4 && SideParity(c) == c % 2 && SideLength(c) == c / 2 + 1
  {
    if c > 0 {
      SideClosedForm(c - 1);
    }
  }

  /** The number of drags before side c starts. */
  function StepsBefore(c: nat): nat
  {
    if c == 0 then 0 else StepsBefore(c - 1) + SideLength(c - 1)
  }

  /** The state at drag j of side c: the side's direction index, j steps into it, its length
      and its parity. */
  function SideState(c: nat, j: nat): SpiralState
  {
    SpiralState(SideDirectionIndex(c), j, SideLength(c), SideParity(c))
  }

  /** One drag more is one update more. */
  lemma StateAfterStep(m: nat)
    ensures StateAfter(m + 1) == Advance(StateAfter(m))
  {
  }

  /** The last drag of side c - 1 turns the walker onto side c. */
  lemma EndOfSide(c: nat)
    requires c > 0
    ensures Advance(SideState(c - 1, SideLength(c - 1) - 1)) == SideState(c, 0)
  {
  }

  /** A drag that does not end its side only counts the step. */
  lemma NextInSide(c: nat, j: nat)
    requires 0 < j < SideLength(c)
    requires StateAfter(StepsBefore(c) + (j - 1)) == SideState(c, j - 1)
    ensures StateAfter(StepsBefore(c) + j) == SideState(c, j)
  {
    StateAfterStep(StepsBefore(c) + (j - 1));
  }

  /** The last drag of side c - 1 starts side c. */
  lemma NextSide(c: nat)
    requires c > 0
    requires StateAfter(StepsBefore(c - 1) + (SideLength(c - 1) - 1)) == SideState(c - 1, SideLength(c - 1) - 1)
    ensures StateAfter(StepsBefore(c)) == SideState(c, 0)
  {
    StateAfterStep(StepsBefore(c - 1) + (SideLength(c - 1) - 1));
    EndOfSide(c);
  }

  /** Along side c, once it has started, drag j is taken in state j of the side. */
  lemma {:induction false} AlongSide(c: nat, j: nat)
    requires j < SideLength(c)
    requires StateAfter(StepsBefore(c)) == SideState(c, 0)
    ensures StateAfter(StepsBefore(c) + j) == SideState(c, j)
  {
    if j > 0 {
      AlongSide(c, j - 1);
      NextInSide(c, j);
    }
  }

  /** Every side starts in its own first state. */
  lemma {:induction false} SideStart(c: nat)
    ensures StateAfter(StepsBefore(c)) == SideState(c, 0)
  {
    if c > 0 {
      SideStart(c - 1);
      AlongSide(c - 1, SideLength(c - 1) - 1);
      NextSide(c);
    }
  }

  /** Within side c, after j of its drags, the walker faces direction c mod 4 with sides of
      length c/2 + 1, and has turned c mod 2 times since the sides last grew. */
  lemma WithinSide(c: nat, j: nat)
    requires j < SideLength(c)
    ensures StateAfter(StepsBefore(c) + j) == SpiralState(c % 4, j, c / 2 + 1, c % 2)
  {
    SideStart(c);
    AlongSide(c, j);
    SideClosedForm(c);
  }

  /** Every drag of side c is taken with direction_index c mod 4, that is in direction
      Directions[c mod 4]: runs of 1, 1, 2, 2, 3, 3, ... drags cycling right, down, left, up. */
  lemma SideDirection(c: nat, j: nat)
    requires j < SideLength(c)
    ensures StateAfter(StepsBefore(c) + j).directionIndex == c % 4
  {
    WithinSide(c, j);
  }

  /** A later side starts only after every drag of an earlier side. */
  lemma {:induction false} StepsBeforeGrows(a: nat, b: nat)
    requires a < b
    ensures StepsBefore(a) + SideLength(a) <= StepsBefore(b)
    decreases b
  {
    if a < b - 1 {
      StepsBeforeGrows(a, b - 1);
    }
  }

  /** Every drag belongs to some side: drag n is drag j of side c. */
  lemma {:induction false} SideAt(n: nat) returns (c: nat, j: nat)
    ensures j < SideLength(c) && n == StepsBefore(c) + j
  {
    if n == 0 {
      c, j := 0, 0;
    } else {
      var c0, j0 := SideAt(n - 1);
      if j0 + 1 < SideLength(c0) {
        c, j := c0, j0 + 1;
      } else {
        assert StepsBefore(c0 + 1) == StepsBefore(c0) + SideLength(c0);
        c, j := c0 + 1, 0;
      }
    }
  }

  /** Every drag belongs to exactly one side: drag n is drag j of side c, and no other side
      holds it. */
  lemma SideOf(n: nat) returns (c: nat, j: nat)
    ensures j < SideLength(c) && n == StepsBefore(c) + j
    ensures forall c': nat :: StepsBefore(c') <= n < StepsBefore(c') + SideLength(c') ==> c' == c
  {
    c, j := SideAt(n);
    forall c': nat | StepsBefore(c') <= n < StepsBefore(c') + SideLength(c')
      ensures c' == c
    {
      SideUnique(n, c, c');
    }
  }

  /** Two sides never share a drag. */
  lemma SideUnique(n: nat, c: nat, c': nat)
    requires StepsBefore(c) <= n < StepsBefore(c) + SideLength(c)
    requires StepsBefore(c') <= n < StepsBefore(c') + SideLength(c')
    ensures c == c'
  {
    if c' < c {
      StepsBeforeGrows(c', c);
    } else if c < c' {
      StepsBeforeGrows(c, c');
    }
  }

  /** The first target template, in list order, found on one screen. */
  function FirstHit(targets: seq<string>, screen: string -> Option<Point>): (r: Option<(string, Point)>)
    ensures r.Some? ==> r.value.0 in targets && screen(r.value.0) == Some(r.value.1)
    ensures r.None? <==> forall t :: t in targets ==> screen(t).None?
  {
    if targets == [] then None
    else if screen(targets[0]).Some? then Some((targets[0], screen(targets[0]).value))
    else FirstHit(targets[1..], screen)
  }

  /** FirstHit picks the earliest match: every target before it was not found. */
  lemma {:induction false} FirstHitIsFirst(targets: seq<string>, screen: string -> Option<Point>)
    requires FirstHit(targets, screen).Some?
    ensures exists i :: 0 <= i < |targets| && targets[i] == FirstHit(targets, screen).value.0 &&
              forall k :: 0 <= k < i ==> screen(targets[k]).None?
  {
    if screen(targets[0]).None? {
      FirstHitIsFirst(targets[1..], screen);
      var i :| 0 <= i < |targets[1..]| && targets[1..][i] == FirstHit(targets[1..], screen).value.0 &&
               forall k :: 0 <= k < i ==> screen(targets[1..][k]).None?;
      assert targets[i + 1] == FirstHit(targets, screen).value.0;
    } else {
      assert targets[0] == FirstHit(targets, screen).value.0;
    }
  }

  /** The inner loop of both searches: try each target in list order on one screen and
      stop at the first found. */
  method ScanScreen(targets: seq<string>, screen: string -> Option<Point>) returns (hit: Option<(string, Point)>)
    ensures hit == FirstHit(targets, screen)
  {
    var i := 0;
    while i < |targets|
      invariant 0 <= i <= |targets|
      invariant FirstHit(targets, screen) == FirstHit(targets[i..], screen)
    {
      var position := screen(targets[i]);
      if position.Some? {
        return Some((targets[i], position.value));
      }
      assert targets[i..][1..] == targets[i + 1..];
      i := i + 1;
    }
    return None;
  }

  /** What a search reports: the template found, where, and on which screen. */
  datatype Found = Found(template: string, at: Point, screen: nat)

  /** The outcome shared by both searches: at most `maxIterations` screens are examined; the
      search stops at the first screen with a match, reports the first target found on it and
      clicks where it was found; one drag separates consecutive screens. */
  predicate SearchOutcome(targets: seq<string>, maxIterations: int, look: nat -> string -> Option<Point>,
                          found: Option<Found>, drags: seq<Drag>, clicks: seq<Point>)
  {
    && (forall i :: 0 <= i < |drags| ==> FirstHit(targets, look(i)).None?)
    && clicks == (if found.Some? then [found.value.at] else [])
    && (found.None? ==> |drags| == Max(0, maxIterations))
    && (found.Some? ==>
          |drags| < maxIterations && found.value.screen == |drags| &&
          FirstHit(targets, look(|drags|)) == Some((found.value.template, found.value.at)))
  }

  /** None of the first n screens has a hit. */
  predicate NoHitBefore(targets: seq<string>, look: nat -> string -> Option<Point>, n: nat)
  {
    n == 0 || (NoHitBefore(targets, look, n - 1) && FirstHit(targets, look(n - 1)).None?)
  }

  /** NoHitBefore says that every one of the first n screens is without a hit. */
  lemma {:induction false} NoHitBeforeMeaning(targets: seq<string>, look: nat -> string -> Option<Point>, n: nat)
    ensures NoHitBefore(targets, look, n) <==> forall i :: 0 <= i < n ==> FirstHit(targets, look(i)).None?
  {
    if n > 0 {
      NoHitBeforeMeaning(targets, look, n - 1);
    }
  }

  /** A search that stops at the first screen with a hit has the outcome of a search. */
  lemma SearchHit(targets: seq<string>, maxIterations: int, look: nat -> string -> Option<Point>,
                  drags: seq<Drag>, hit: (string, Point))
    requires |drags| < maxIterations && NoHitBefore(targets, look, |drags|)
    requires FirstHit(targets, look(|drags|)) == Some(hit)
    ensures SearchOutcome(targets, maxIterations, look, Some(Found(hit.0, hit.1, |drags|)), drags, [hit.1])
  {
    NoHitBeforeMeaning(targets, look, |drags|);
  }

  /** A search that lets every screen go by without a hit has the outcome of a search. */
  lemma SearchMiss(targets: seq<string>, maxIterations: int, look: nat -> string -> Option<Point>, drags: seq<Drag>)
    requires |drags| == Max(0, maxIterations) && NoHitBefore(targets, look, |drags|)
    ensures SearchOutcome(targets, maxIterations, look, None, drags, [])
  {
    NoHitBeforeMeaning(targets, look, |drags|);
  }

  /** directional_search: every drag is the same one. */
  method DirectionalSearch(targets: seq<string>, d: Direction, maxIterations: int,
                           screenWidth: nat, screenHeight: nat, look: nat -> string -> Option<Point>)
    returns (found: Option<Found>, drags: seq<Drag>, clicks: seq<Point>)
    ensures SearchOutcome(targets, maxIterations, look, found, drags, clicks)
    ensures forall k :: 0 <= k < |drags| ==> drags[k] == DirectionalDrag(ScreenCenter(screenWidth, screenHeight), d)
  {
    var c := ScreenCenter(screenWidth, screenHeight);
    var drag := DirectionalDrag(c, d);
    drags := [];
    var iteration := 0;
    while iteration < maxIterations
      invariant 0 <= iteration == |drags| <= Max(0, maxIterations)
      invariant NoHitBefore(targets, look, iteration)
      invariant forall k :: 0 <= k < |drags| ==> drags[k] == drag
    {
      var hit := ScanScreen(targets, look(iteration));
      if hit.Some? {
        SearchHit(targets, maxIterations, look, drags, hit.value);
        return Some(Found(hit.value.0, hit.value.1, iteration)), drags, [hit.value.1];
      }
      drags := drags + [drag];
      iteration := iteration + 1;
    }
    SearchMiss(targets, maxIterations, look, drags);
    found, clicks := None, [];
  }

  /** The state update of spiral_search after each drag. */
  method UpdateSpiral(directionIndex: int, stepsTaken: int, stepsPerSide: int, sideChanges: int)
    returns (directionIndex': int, stepsTaken': int, stepsPerSide': int, sideChanges': int)
    ensures SpiralState(directionIndex', stepsTaken', stepsPerSide', sideChanges') ==
            Advance(SpiralState(directionIndex, stepsTaken, stepsPerSide, sideChanges))
  {
    directionIndex', stepsTaken', stepsPerSide', sideChanges' := directionIndex, stepsTaken + 1, stepsPerSide, sideChanges;
    if stepsTaken' == stepsPerSide' {
      directionIndex' := (directionIndex' + 1) % 4;
      stepsTaken' := 0;
      sideChanges' := sideChanges' + 1;
      if sideChanges' == 2 {
        stepsPerSide' := stepsPerSide' + 1;
        sideChanges' := 0;
      }
    }
  }

  /** The first n drags of the spiral walk. */
  function SpiralDrags(c: Point, n: nat): (r: seq<Drag>)
    ensures |r| == n
  {
    if n == 0 then [] else SpiralDrags(c, n - 1) + [SpiralDrag(c, SpiralDirection(n - 1))]
  }

  /** Drag k of the walk goes in spiral direction k. */
  lemma {:induction false} SpiralDragsAt(c: Point, n: nat)
    ensures forall k :: 0 <= k < n ==> SpiralDrags(c, n)[k] == SpiralDrag(c, SpiralDirection(k))
  {
    if n > 0 {
      SpiralDragsAt(c, n - 1);
      assert forall k :: 0 <= k < n - 1 ==> SpiralDrags(c, n)[k] == SpiralDrags(c, n - 1)[k];
    }
  }

  /** One turn of spiral_search's loop after a screen without a hit: the drag in the current
      direction, then the state update. Drag n of the walk is taken in state n. */
  method SpiralStep(c: Point, ghost n: nat, directionIndex: int, stepsTaken: int, stepsPerSide: int, sideChanges: int)
    returns (drag: Drag, directionIndex': int, stepsTaken': int, stepsPerSide': int, sideChanges': int)
    requires SpiralState(directionIndex, stepsTaken, stepsPerSide, sideChanges) == StateAfter(n)
    ensures SpiralDrags(c, n + 1) == SpiralDrags(c, n) + [drag]
    ensures SpiralState(directionIndex', stepsTaken', stepsPerSide', sideChanges') == StateAfter(n + 1)
  {
    var current := Directions[directionIndex];
    drag := SpiralDrag(c, current);
    directionIndex', stepsTaken', stepsPerSide', sideChanges' :=
      UpdateSpiral(directionIndex, stepsTaken, stepsPerSide, sideChanges);
  }

  /** spiral_search: the drags follow the square spiral. */
  method SpiralSearch(targets: seq<string>, maxIterations: int,
                      screenWidth: nat, screenHeight: nat, look: nat -> string -> Option<Point>)
    returns (found: Option<Found>, drags: seq<Drag>, clicks: seq<Point>)
    ensures SearchOutcome(targets, maxIterations, look, found, drags, clicks)
    ensures drags == SpiralDrags(ScreenCenter(screenWidth, screenHeight), |drags|)
  {
    var c := ScreenCenter(screenWidth, screenHeight);
    var directionIndex, stepsPerSide, stepsTaken, sideChanges := 0, 1, 0, 0;
    drags := [];
    var iteration := 0;
    while iteration < maxIterations
      invariant 0 <= iteration == |drags| <= Max(0, maxIterations)
      invariant NoHitBefore(targets, look, iteration)
      invariant drags == SpiralDrags(c, iteration)
      invariant SpiralState(directionIndex, stepsTaken, stepsPerSide, sideChanges) == StateAfter(iteration)
    {
      var hit := ScanScreen(targets, look(iteration));
      if hit.Some? {
        SearchHit(targets, maxIterations, look, drags, hit.value);
        return Some(Found(hit.value.0, hit.value.1, iteration)), drags, [hit.value.1];
      }
      var drag;
      drag, directionIndex, stepsTaken, stepsPerSide, sideChanges :=
        SpiralStep(c, iteration, directionIndex, stepsTaken, stepsPerSide, sideChanges);
      drags := drags + [drag];
      iteration := iteration + 1;
    }
    SearchMiss(targets, maxIterations, look, drags);
    found, clicks := None, [];
  }

  /** The five troop templates, levels 1 to 5. */
  const AllLevels: seq<string> :=
    ["troop_level1.png", "troop_level2.png", "troop_level3.png", "troop_level4.png", "troop_level5.png"]

  /** The level menu choices that pick one level. */
  const LevelChoices: seq<string> := ["1", "2", "3", "4", "5"]

  /** The level menu: '1'..'5' search for that level alone; '0' and any other answer
      search all five levels. */
  function LevelTemplates(choice: string): (r: seq<string>)
    ensures forall k :: 0 <= k < 5 && choice == LevelChoices[k] ==> r == [AllLevels[k]]
    ensures choice !in LevelChoices ==> r == AllLevels
    ensures forall t :: t in r ==> t in AllLevels
  {
    if choice == "0" then AllLevels
    else if choice == "1" then [AllLevels[0]]
    else if choice == "2" then [AllLevels[1]]
    else if choice == "3" then [AllLevels[2]]
    else if choice == "4" then [AllLevels[3]]
    else if choice == "5" then [AllLevels[4]]
    else AllLevels
  }

  datatype Search = Spiral | Directional(d: Direction)

  /** The direction menu: '5' is the spiral; '1'..'4' are up, down, left, right; anything
      else falls back to a rightward directional search. */
  function SearchFor(choice: string): (r: Search)
    ensures r == Spiral <==> choice == "5"
    ensures choice == "1" ==> r == Directional(Up)
    ensures choice == "2" ==> r == Directional(Down)
    ensures choice == "3" ==> r == Directional(Left)
    ensures choice == "4" ==> r == Directional(Right)
    ensures choice !in ["1", "2", "3", "4", "5"] ==> r == Directional(Right)
  {
    if choice == "5" then Spiral
    else
      var directions := map["1" := Up, "2" := Down, "3" := Left, "4" := Right];
      Directional(if choice in directions then directions[choice] else Right)
  }
}
