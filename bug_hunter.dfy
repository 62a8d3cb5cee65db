// The "Bug Hunter" mini-game: spawn placement, pointer tracking, the
// per-frame flee/wander step and the caught/score/respawn round machine.
//
// Coordinates are reals. The source's Math.random() values arrive as a
// sequence of draws, and its two Math.sqrt results in a frame (the
// bug-to-pointer distance and the length of the steered direction) arrive as
// supplied square roots that the caller must get right (IsRoot).

module BugHunter {

  datatype Option<T> = None | Some(value: T)

  datatype Point = Point(x: real, y: real)

  datatype Vec = Vec(x: real, y: real)

  /** The container's bounding client rectangle. */
  datatype Rect = Rect(left: real, top: real, width: real, height: real)

  datatype Touch = Touch(clientX: real, clientY: real)

  /** The two event kinds the container listens to. */
  datatype PointerEvent =
    | MouseMove(clientX: real, clientY: real)
    | TouchMove(touches: seq<Touch>)

  // Spawn placement
  const SPAWN_INSET: real := 50.0
  const MIN_SPAWN_DISTANCE: real := 200.0
  const MAX_SPAWN_ATTEMPTS: nat := 10
  /** Reference point used when placing the bug on mount. */
  const OFFSCREEN: real := -999.0

  // Evasion
  const SAFE_DISTANCE: real := 300.0
  const BASE_SPEED: real := 6.0
  const SPEED_GAIN_PER_POINT: real := 0.2
  const WALL_DISTANCE: real := 50.0
  const AVOIDANCE_FORCE: real := 2.0
  const CLAMP_MARGIN: real := 20.0
  const JITTER: real := 5.0

  // Round
  const CATCH_RADIUS: real := 30.0

  function SqDist(a: Point, b: Point): real {
    (a.x - b.x) * (a.x - b.x) + (a.y - b.y) * (a.y - b.y)
  }

  function SqLen(v: Vec): real {
    v.x * v.x + v.y * v.y
  }

  /** r is the square root Math.sqrt would return for s. */
  predicate IsRoot(r: real, s: real) {
    0.0 <= r && r * r == s
  }

  /** A Math.random() result. */
  predicate IsDraw(r: real) {
    0.0 <= r < 1.0
  }

  /** Comparing a distance with a bound is comparing its square with the bound's square. */
  lemma RootBelow(r: real, s: real, c: real)
    requires IsRoot(r, s) && 0.0 <= c
    ensures r < c <==> s < c * c
  {
    if r < c {
      SquareLt(r, c);
    } else if c < r {
      SquareLt(c, r);
    }
  }

  lemma SquareLt(a: real, b: real)
    requires 0.0 <= a < b
    ensures a * a < b * b
  {
    var p, q, t := a * a, a * b, b * b;
    assert p <= q by { assert (b - a) * a >= 0.0; }
    assert q < t by { assert (b - a) * b > 0.0; }
  }

  // ---------------------------------------------------------------------
  // Spawn placement (spawnBug)
  // ---------------------------------------------------------------------

  /** One coordinate of a candidate: a draw scaled into the container inset by 50. */
  function SpawnCoord(r: real, extent: real): real {
    r * (extent - 2.0 * SPAWN_INSET) + SPAWN_INSET
  }

  /** A candidate lies 50 from each edge; the upper bound is strict once the extent exceeds 100. */
  lemma SpawnCoordBounds(r: real, extent: real)
    requires IsDraw(r) && extent >= 2.0 * SPAWN_INSET
    ensures SPAWN_INSET <= SpawnCoord(r, extent) <= extent - SPAWN_INSET
    ensures extent > 2.0 * SPAWN_INSET ==> SpawnCoord(r, extent) < extent - SPAWN_INSET
  {
    var span := extent - 2.0 * SPAWN_INSET;
    ScaleBelow(r, span);
    var m := r * span;
    assert SpawnCoord(r, extent) == m + SPAWN_INSET;
  }

  lemma ScaleBelow(r: real, span: real)
    requires 0.0 <= r < 1.0 && 0.0 <= span
    ensures 0.0 <= r * span <= span
    ensures span > 0.0 ==> r * span < span
  {
    assert (1.0 - r) * span >= 0.0;
    if span > 0.0 {
      assert (1.0 - r) * span > 0.0;
    }
  }

  /** The candidate of attempt k (counting from 0), built from draws 2k and 2k+1. */
  function Candidate(width: real, height: real, draws: seq<real>, k: nat): Point
    requires 2 * k + 1 < |draws|
  {
    Point(SpawnCoord(draws[2 * k], width), SpawnCoord(draws[2 * k + 1], height))
  }

  /** The retry condition: closer than 200 to the reference point. */
  predicate TooClose(p: Point, reference: Point) {
    SqDist(p, reference) < MIN_SPAWN_DISTANCE * MIN_SPAWN_DISTANCE
  }

  datatype Spawned = Spawned(pos: Point, attempts: nat)

  /**
   * The outcome of the sampling loop when `done` attempts were already
   * rejected: the first candidate far enough away, or the tenth one.
   */
  function SpawnFrom(width: real, height: real, reference: Point, draws: seq<real>, done: nat): Spawned
    requires done < MAX_SPAWN_ATTEMPTS && 2 * MAX_SPAWN_ATTEMPTS <= |draws|
    decreases MAX_SPAWN_ATTEMPTS - done
  {
    var c := Candidate(width, height, draws, done);
    if TooClose(c, reference) && done + 1 < MAX_SPAWN_ATTEMPTS then
      SpawnFrom(width, height, reference, draws, done + 1)
    else
      Spawned(c, done + 1)
  }

  /** The loop stops after 1 to 10 attempts, on the first far candidate or on the tenth. */
  lemma {:induction false} SpawnFromSpec(width: real, height: real, reference: Point, draws: seq<real>, done: nat)
    requires done < MAX_SPAWN_ATTEMPTS && 2 * MAX_SPAWN_ATTEMPTS <= |draws|
    ensures var r := SpawnFrom(width, height, reference, draws, done);
      && done < r.attempts <= MAX_SPAWN_ATTEMPTS
      && r.pos == Candidate(width, height, draws, r.attempts - 1)
      && (!TooClose(r.pos, reference) || r.attempts == MAX_SPAWN_ATTEMPTS)
      && forall k :: done <= k < r.attempts - 1 ==> TooClose(Candidate(width, height, draws, k), reference)
    decreases MAX_SPAWN_ATTEMPTS - done
  {
    var c := Candidate(width, height, draws, done);
    if TooClose(c, reference) && done + 1 < MAX_SPAWN_ATTEMPTS {
      SpawnFromSpec(width, height, reference, draws, done + 1);
    }
  }

  /** With draws in [0,1) and a container at least 100 by 100, a spawn lies 50 inside each edge. */
  lemma SpawnInBounds(width: real, height: real, reference: Point, draws: seq<real>)
    requires 2 * MAX_SPAWN_ATTEMPTS <= |draws| && forall i :: 0 <= i < |draws| ==> IsDraw(draws[i])
    requires width >= 2.0 * SPAWN_INSET && height >= 2.0 * SPAWN_INSET
    ensures var p := SpawnFrom(width, height, reference, draws, 0).pos;
      && SPAWN_INSET <= p.x <= width - SPAWN_INSET
      && SPAWN_INSET <= p.y <= height - SPAWN_INSET
      && (width > 2.0 * SPAWN_INSET ==> p.x < width - SPAWN_INSET)
      && (height > 2.0 * SPAWN_INSET ==> p.y < height - SPAWN_INSET)
  {
    SpawnFromSpec(width, height, reference, draws, 0);
    var k := SpawnFrom(width, height, reference, draws, 0).attempts - 1;
    SpawnCoordBounds(draws[2 * k], width);
    SpawnCoordBounds(draws[2 * k + 1], height);
  }

  /** Measured against the off-screen mount reference, the first candidate is always accepted. */
  lemma MountSpawnFirstTry(width: real, height: real, draws: seq<real>)
    requires 2 * MAX_SPAWN_ATTEMPTS <= |draws| && forall i :: 0 <= i < |draws| ==> IsDraw(draws[i])
    requires width >= 2.0 * SPAWN_INSET && height >= 2.0 * SPAWN_INSET
    ensures SpawnFrom(width, height, Point(OFFSCREEN, OFFSCREEN), draws, 0).attempts == 1
  {
    var c := Candidate(width, height, draws, 0);
    SpawnCoordBounds(draws[0], width);
    SpawnCoordBounds(draws[1], height);
    FarFromOffscreen(c.x - OFFSCREEN, c.y - OFFSCREEN);
    assert !TooClose(c, Point(OFFSCREEN, OFFSCREEN));
  }

  lemma FarFromOffscreen(dx: real, dy: real)
    requires dx >= 1049.0
    ensures dx * dx + dy * dy >= MIN_SPAWN_DISTANCE * MIN_SPAWN_DISTANCE
  {
    assert dx * dx >= 1049.0 * 1049.0 by { assert (dx - 1049.0) * (dx + 1049.0) >= 0.0; }
    assert dy * dy >= 0.0;
  }

  /**
   * spawnBug: draw candidates inside the container until one is at least
   * 200 from the reference point, giving up after ten attempts.
   */
  method Spawn(width: real, height: real, reference: Point, draws: seq<real>) returns (p: Point, attempts: nat)
    requires 2 * MAX_SPAWN_ATTEMPTS <= |draws|
    ensures Spawned(p, attempts) == SpawnFrom(width, height, reference, draws, 0)
    ensures 1 <= attempts <= MAX_SPAWN_ATTEMPTS
    ensures p == Candidate(width, height, draws, attempts - 1)
    ensures !TooClose(p, reference) || attempts == MAX_SPAWN_ATTEMPTS
    ensures forall k :: 0 <= k < attempts - 1 ==> TooClose(Candidate(width, height, draws, k), reference)
  {
    attempts := 0;
    p := Point(0.0, 0.0);
    var again := true;
    while again
      invariant attempts <= MAX_SPAWN_ATTEMPTS
      invariant again ==> attempts < MAX_SPAWN_ATTEMPTS
      invariant again ==> SpawnFrom(width, height, reference, draws, attempts) == SpawnFrom(width, height, reference, draws, 0)
      invariant !again ==> Spawned(p, attempts) == SpawnFrom(width, height, reference, draws, 0)
      decreases MAX_SPAWN_ATTEMPTS - attempts
    {
      var x := draws[2 * attempts] * (width - 2.0 * SPAWN_INSET) + SPAWN_INSET;
      var y := draws[2 * attempts + 1] * (height - 2.0 * SPAWN_INSET) + SPAWN_INSET;
      p := Point(x, y);
      var distSq := SqDist(p, reference);
      assert p == Candidate(width, height, draws, attempts);
      attempts := attempts + 1;
      again := distSq < MIN_SPAWN_DISTANCE * MIN_SPAWN_DISTANCE && attempts < MAX_SPAWN_ATTEMPTS;
    }
    SpawnFromSpec(width, height, reference, draws, 0);
  }

  // ---------------------------------------------------------------------
  // Pointer conversion (handleMove)
  // ---------------------------------------------------------------------

  /**
   * The client position of an event: the mouse position, or the first touch.
   * A touch event with no touches has no position (reading touches[0] throws).
   */
  function ClientPoint(e: PointerEvent): Option<Point> {
    match e
    case MouseMove(cx, cy) => Some(Point(cx, cy))
    case TouchMove(ts) => if |ts| == 0 then None else Some(Point(ts[0].clientX, ts[0].clientY))
  }

  /** Client coordinates made relative to the container's top-left corner. */
  function Relative(c: Point, rect: Rect): (r: Point)
    ensures r.x + rect.left == c.x && r.y + rect.top == c.y
  {
    Point(c.x - rect.left, c.y - rect.top)
  }

  /** Converting to container coordinates loses nothing: two client points with the same relative point are equal. */
  lemma RelativeInjective(a: Point, b: Point, rect: Rect)
    requires Relative(a, rect) == Relative(b, rect)
    ensures a == b
  {
    assert a.x == Relative(a, rect).x + rect.left;
    assert b.x == Relative(b, rect).x + rect.left;
  }

  // ---------------------------------------------------------------------
  // The per-frame step (gameLoop)
  // ---------------------------------------------------------------------

  /** moveSpeed, which grows with the score. */
  function MoveSpeed(score: nat): (r: real)
    ensures r >= BASE_SPEED
  {
    BASE_SPEED * (1.0 + score as real * SPEED_GAIN_PER_POINT)
  }

  /** Each point scored makes the bug strictly faster. */
  lemma MoveSpeedIncreasing(a: nat, b: nat)
    requires a < b
    ensures MoveSpeed(a) < MoveSpeed(b)
    ensures MoveSpeed(b) - MoveSpeed(a) == (b - a) as real * 1.2
  {
  }

  /** The unit vector from the pointer to the bug, given their distance. */
  function Away(bug: Point, mouse: Point, distance: real): Vec
    requires IsRoot(distance, SqDist(bug, mouse)) && distance > 0.0
  {
    Vec((bug.x - mouse.x) / distance, (bug.y - mouse.y) / distance)
  }

  /** One axis of the wall-avoidance push: +2 near the low wall, -2 near the high wall. */
  function AvoidAxis(pos: real, v: real, extent: real): (r: real)
    ensures extent >= 2.0 * WALL_DISTANCE ==>
      && (pos < WALL_DISTANCE ==> r == v + AVOIDANCE_FORCE)
      && (pos > extent - WALL_DISTANCE ==> r == v - AVOIDANCE_FORCE)
      && (WALL_DISTANCE <= pos <= extent - WALL_DISTANCE ==> r == v)
    ensures v - AVOIDANCE_FORCE <= r <= v + AVOIDANCE_FORCE
  {
    var pushed := if pos < WALL_DISTANCE then v + AVOIDANCE_FORCE else v;
    if pos > extent - WALL_DISTANCE then pushed - AVOIDANCE_FORCE else pushed
  }

  /** The flee direction after the wall-avoidance push, before renormalising. */
  function WallAvoidance(bug: Point, v: Vec, width: real, height: real): Vec {
    Vec(AvoidAxis(bug.x, v.x, width), AvoidAxis(bug.y, v.y, height))
  }

  /** Guarded renormalisation: scale by 1/len, keeping the direction, unless len is zero. */
  function Renormalised(v: Vec, len: real): (r: Vec)
    requires IsRoot(len, SqLen(v))
    ensures len > 0.0 ==> r.x * len == v.x && r.y * len == v.y
    ensures len == 0.0 ==> r == v
  {
    if len > 0.0 then Vec(v.x / len, v.y / len) else v
  }

  /** Dividing by the true, non-zero length gives a unit vector. */
  lemma RenormalisedUnit(v: Vec, len: real)
    requires IsRoot(len, SqLen(v)) && len > 0.0
    ensures SqLen(Renormalised(v, len)) == 1.0
  {
    var r := Renormalised(v, len);
    var sq := len * len;
    assert sq > 0.0 by { SquareLt(0.0, len); }
    calc {
      sq * SqLen(r);
      (r.x * len) * (r.x * len) + (r.y * len) * (r.y * len);
      v.x * v.x + v.y * v.y;
      sq;
    }
    assert sq * (SqLen(r) - 1.0) == 0.0;
  }

  /** Away is a unit vector: the offset from the pointer divided by its true length. */
  lemma AwayUnit(bug: Point, mouse: Point, distance: real)
    requires IsRoot(distance, SqDist(bug, mouse)) && distance > 0.0
    ensures SqLen(Away(bug, mouse, distance)) == 1.0
  {
    var offset := Vec(bug.x - mouse.x, bug.y - mouse.y);
    assert SqLen(offset) == SqDist(bug, mouse);
    assert Away(bug, mouse, distance) == Renormalised(offset, distance);
    RenormalisedUnit(offset, distance);
  }

  /** The hard clamp on one axis: to the 20 margin at the low end, then at the high end. */
  function ClampCoord(v: real, extent: real): (r: real)
    ensures extent >= 2.0 * CLAMP_MARGIN ==> CLAMP_MARGIN <= r <= extent - CLAMP_MARGIN
    ensures CLAMP_MARGIN <= v <= extent - CLAMP_MARGIN ==> r == v
    ensures r == v || r == CLAMP_MARGIN || r == extent - CLAMP_MARGIN
    ensures extent < 2.0 * CLAMP_MARGIN ==> r == extent - CLAMP_MARGIN
  {
    var low := if v < CLAMP_MARGIN then CLAMP_MARGIN else v;
    if low > extent - CLAMP_MARGIN then extent - CLAMP_MARGIN else low
  }

  /** A flee step: move along dir at the given speed, then clamp to the margin. */
  function FleeMove(bug: Point, dir: Vec, speed: real, width: real, height: real): (r: Point)
    ensures width >= 2.0 * CLAMP_MARGIN ==> CLAMP_MARGIN <= r.x <= width - CLAMP_MARGIN
    ensures height >= 2.0 * CLAMP_MARGIN ==> CLAMP_MARGIN <= r.y <= height - CLAMP_MARGIN
  {
    Point(ClampCoord(bug.x + dir.x * speed, width), ClampCoord(bug.y + dir.y * speed, height))
  }

  /** A wander step: jitter each coordinate by (r - 0.5) * 5, with no clamp. */
  function WanderMove(bug: Point, rx: real, ry: real): (r: Point)
    ensures IsDraw(rx) ==> -JITTER / 2.0 <= r.x - bug.x < JITTER / 2.0
    ensures IsDraw(ry) ==> -JITTER / 2.0 <= r.y - bug.y < JITTER / 2.0
  {
    Point(bug.x + (rx - 0.5) * JITTER, bug.y + (ry - 0.5) * JITTER)
  }

  /** The flee direction: away from the pointer, pushed off nearby walls, renormalised. */
  method Steer(bug: Point, mouse: Point, distance: real, vLen: real, width: real, height: real) returns (dir: Vec)
    requires IsRoot(distance, SqDist(bug, mouse)) && distance > 0.0
    requires IsRoot(vLen, SqLen(WallAvoidance(bug, Away(bug, mouse, distance), width, height)))
    ensures dir == Renormalised(WallAvoidance(bug, Away(bug, mouse, distance), width, height), vLen)
    ensures vLen > 0.0 ==> SqLen(dir) == 1.0
  {
    var dx := bug.x - mouse.x;
    var dy := bug.y - mouse.y;
    var vx := dx / distance;
    var vy := dy / distance;
    if bug.x < WALL_DISTANCE { vx := vx + AVOIDANCE_FORCE; }
    if bug.x > width - WALL_DISTANCE { vx := vx - AVOIDANCE_FORCE; }
    if bug.y < WALL_DISTANCE { vy := vy + AVOIDANCE_FORCE; }
    if bug.y > height - WALL_DISTANCE { vy := vy - AVOIDANCE_FORCE; }
    if vLen > 0.0 {
      vx := vx / vLen;
      vy := vy / vLen;
    }
    dir := Vec(vx, vy);
    if vLen > 0.0 {
      RenormalisedUnit(WallAvoidance(bug, Away(bug, mouse, distance), width, height), vLen);
    }
  }

  /** Move along dir at the given speed, then apply the hard boundary clamp. */
  method StepAndClamp(bug: Point, dir: Vec, speed: real, width: real, height: real) returns (p: Point)
    ensures p == FleeMove(bug, dir, speed, width, height)
    ensures width >= 2.0 * CLAMP_MARGIN ==> CLAMP_MARGIN <= p.x <= width - CLAMP_MARGIN
    ensures height >= 2.0 * CLAMP_MARGIN ==> CLAMP_MARGIN <= p.y <= height - CLAMP_MARGIN
  {
    var x := bug.x + dir.x * speed;
    var y := bug.y + dir.y * speed;
    if x < CLAMP_MARGIN { x := CLAMP_MARGIN; }
    if x > width - CLAMP_MARGIN { x := width - CLAMP_MARGIN; }
    if y < CLAMP_MARGIN { y := CLAMP_MARGIN; }
    if y > height - CLAMP_MARGIN { y := height - CLAMP_MARGIN; }
    p := Point(x, y);
  }

  // ---------------------------------------------------------------------
  // The round state
  // ---------------------------------------------------------------------

  /** What the pending 800 ms respawn callback closed over: the catch tick's rectangle and pointer. */
  datatype Ticket = Ticket(rect: Rect, mouse: Point)

  /** mousePosRef, bugPosRef, caught, score, splatPos and the pending respawn. */
  datatype GameState = GameState(
    mouse: Point, bug: Point, caught: bool, score: nat, splat: Point, pending: Option<Ticket>)

  /** A respawn is pending exactly while the bug is caught. */
  predicate Consistent(s: GameState) {
    s.caught <==> s.pending.Some?
  }

  /** Where the bug is drawn: the splat while caught, the bug position otherwise. */
  function Displayed(s: GameState): Point {
    if s.caught then s.splat else s.bug
  }

  /** The state before mount places the bug. */
  function Initial(): (s: GameState)
    ensures Consistent(s) && !s.caught && s.score == 0
  {
    GameState(Point(0.0, 0.0), Point(50.0, 50.0), false, 0, Point(0.0, 0.0), None)
  }

  /** handleMove on the state: record the relative pointer, or do nothing. */
  function AfterMove(s: GameState, container: Option<Rect>, e: PointerEvent): GameState {
    if container.None? then s
    else match ClientPoint(e)
      case None => s
      case Some(c) => s.(mouse := Relative(c, container.value))
  }

  /** The flee branch runs when the bug is not caught and the pointer is closer than 300. */
  predicate Flees(s: GameState, distance: real) {
    distance < SAFE_DISTANCE && !s.caught
  }

  /** The catch fires only from not-caught, on the pre-move distance. */
  predicate Catches(s: GameState, distance: real) {
    distance < CATCH_RADIUS && !s.caught
  }

  /**
   * What a frame needs from outside: the true pointer distance, at least two
   * draws, and on the flee branch a non-zero distance and the true length of
   * the steered direction.
   */
  predicate TickInputs(s: GameState, rect: Rect, distance: real, vLen: real, draws: seq<real>) {
    && |draws| >= 2
    && IsRoot(distance, SqDist(s.bug, s.mouse))
    && (Flees(s, distance) ==>
          distance > 0.0
          && IsRoot(vLen, SqLen(WallAvoidance(s.bug, Away(s.bug, s.mouse, distance), rect.width, rect.height))))
  }

  /** The bug position after one frame's movement. */
  function Moved(s: GameState, rect: Rect, distance: real, vLen: real, draws: seq<real>): Point
    requires TickInputs(s, rect, distance, vLen, draws)
  {
    if Flees(s, distance) then
      var steered := WallAvoidance(s.bug, Away(s.bug, s.mouse, distance), rect.width, rect.height);
      FleeMove(s.bug, Renormalised(steered, vLen), MoveSpeed(s.score), rect.width, rect.height)
    else if !s.caught then
      WanderMove(s.bug, draws[0], draws[1])
    else
      s.bug
  }

  /** One gameLoop frame with the container present. */
  function AfterTick(s: GameState, rect: Rect, distance: real, vLen: real, draws: seq<real>): GameState
    requires TickInputs(s, rect, distance, vLen, draws)
  {
    var p := Moved(s, rect, distance, vLen, draws);
    if Catches(s, distance) then
      s.(bug := p, caught := true, score := s.score + 1, splat := p, pending := Some(Ticket(rect, s.mouse)))
    else
      s.(bug := p)
  }

  /** The respawn callback: uncatch, and spawn against the catch tick's pointer. */
  function AfterRespawn(s: GameState, draws: seq<real>): GameState
    requires s.pending.Some? && 2 * MAX_SPAWN_ATTEMPTS <= |draws|
  {
    var t := s.pending.value;
    s.(caught := false, pending := None,
       bug := SpawnFrom(t.rect.width, t.rect.height, t.mouse, draws, 0).pos)
  }

  /** The effect body on mount (and on each re-run): place the bug away from (-999, -999). */
  function AfterPlace(s: GameState, container: Option<Rect>, draws: seq<real>): GameState
    requires 2 * MAX_SPAWN_ATTEMPTS <= |draws|
  {
    if container.None? then s
    else s.(bug := SpawnFrom(container.value.width, container.value.height,
                             Point(OFFSCREEN, OFFSCREEN), draws, 0).pos)
  }

  // ---------------------------------------------------------------------
  // Properties of the round machine
  // ---------------------------------------------------------------------

  /** Every event keeps "caught exactly while a respawn is pending". */
  lemma EventsKeepConsistent(s: GameState, rect: Rect, distance: real, vLen: real, draws: seq<real>)
    requires Consistent(s)
    ensures TickInputs(s, rect, distance, vLen, draws) ==> Consistent(AfterTick(s, rect, distance, vLen, draws))
    ensures s.pending.Some? && 2 * MAX_SPAWN_ATTEMPTS <= |draws| ==> Consistent(AfterRespawn(s, draws))
    ensures 2 * MAX_SPAWN_ATTEMPTS <= |draws| ==> forall c :: Consistent(AfterPlace(s, c, draws))
  {
  }

  /** A tick while caught changes nothing at all: position, score, splat and pending respawn stay. */
  lemma FrozenWhileCaught(s: GameState, rect: Rect, distance: real, vLen: real, draws: seq<real>)
    requires TickInputs(s, rect, distance, vLen, draws) && s.caught
    ensures AfterTick(s, rect, distance, vLen, draws) == s
  {
  }

  /** After a flee step, in a container at least 40 by 40, the bug lies 20 inside each edge, whatever the direction. */
  lemma FleeStaysInside(s: GameState, rect: Rect, distance: real, vLen: real, draws: seq<real>)
    requires TickInputs(s, rect, distance, vLen, draws) && Flees(s, distance)
    requires rect.width >= 2.0 * CLAMP_MARGIN && rect.height >= 2.0 * CLAMP_MARGIN
    ensures var b := AfterTick(s, rect, distance, vLen, draws).bug;
      CLAMP_MARGIN <= b.x <= rect.width - CLAMP_MARGIN && CLAMP_MARGIN <= b.y <= rect.height - CLAMP_MARGIN
  {
  }

  /** A wander step (safe and not caught) moves each coordinate by less than 2.5. */
  lemma WanderBounded(s: GameState, rect: Rect, distance: real, vLen: real, draws: seq<real>)
    requires TickInputs(s, rect, distance, vLen, draws) && !s.caught && !Flees(s, distance)
    requires IsDraw(draws[0]) && IsDraw(draws[1])
    ensures var b := AfterTick(s, rect, distance, vLen, draws).bug;
      -2.5 <= b.x - s.bug.x < 2.5 && -2.5 <= b.y - s.bug.y < 2.5
  {
  }

  /**
   * The catch rule: the score changes exactly when the bug was not caught and
   * the pre-move distance was below 30; then it rises by one, the bug is
   * caught, the splat freezes at the moved position, and the respawn will use
   * this tick's rectangle and pointer.
   */
  lemma CatchRule(s: GameState, rect: Rect, distance: real, vLen: real, draws: seq<real>)
    requires TickInputs(s, rect, distance, vLen, draws)
    ensures var t := AfterTick(s, rect, distance, vLen, draws);
      && (t.score != s.score <==> !s.caught && distance < CATCH_RADIUS)
      && (t.score != s.score <==> !s.caught && SqDist(s.bug, s.mouse) < CATCH_RADIUS * CATCH_RADIUS)
      && s.score <= t.score <= s.score + 1
      && (t.score == s.score + 1 ==>
            t.caught && t.splat == t.bug && t.pending == Some(Ticket(rect, s.mouse)))
      && (t.score == s.score ==> t.caught == s.caught && t.splat == s.splat && t.pending == s.pending)
  {
    RootBelow(distance, SqDist(s.bug, s.mouse), CATCH_RADIUS);
  }

  /** A catch always follows a flee step, so in a container at least 40 by 40 the splat lies 20 inside. */
  lemma SplatInside(s: GameState, rect: Rect, distance: real, vLen: real, draws: seq<real>)
    requires TickInputs(s, rect, distance, vLen, draws) && Catches(s, distance)
    requires rect.width >= 2.0 * CLAMP_MARGIN && rect.height >= 2.0 * CLAMP_MARGIN
    ensures var t := AfterTick(s, rect, distance, vLen, draws);
      CLAMP_MARGIN <= t.splat.x <= rect.width - CLAMP_MARGIN && CLAMP_MARGIN <= t.splat.y <= rect.height - CLAMP_MARGIN
  {
    assert Flees(s, distance);
  }

  /**
   * The respawn makes the bug active again at a spawn measured against the
   * pointer of the catch tick: the pointer's current position plays no part.
   * The spawn is 200 from that pointer or took all ten attempts, and score
   * and splat are untouched.
   */
  lemma RespawnUsesCatchPointer(s: GameState, mouse: Point, draws: seq<real>)
    requires s.pending.Some? && 2 * MAX_SPAWN_ATTEMPTS <= |draws|
    ensures var t := AfterRespawn(s, draws);
      && !t.caught && t.pending.None? && t.score == s.score && t.splat == s.splat && t.mouse == s.mouse
      && t.bug == AfterRespawn(s.(mouse := mouse), draws).bug
      && (!TooClose(t.bug, s.pending.value.mouse)
          || SpawnFrom(s.pending.value.rect.width, s.pending.value.rect.height,
                       s.pending.value.mouse, draws, 0).attempts == MAX_SPAWN_ATTEMPTS)
  {
    var k := s.pending.value;
    SpawnFromSpec(k.rect.width, k.rect.height, k.mouse, draws, 0);
  }

  /** Re-running the placement effect while caught moves the bug but not what is drawn, nor the round. */
  lemma PlaceWhileCaughtKeepsDisplay(s: GameState, container: Option<Rect>, draws: seq<real>)
    requires s.caught && 2 * MAX_SPAWN_ATTEMPTS <= |draws|
    ensures var t := AfterPlace(s, container, draws);
      Displayed(t) == Displayed(s) && t.caught && t.score == s.score && t.pending == s.pending
  {
  }

  // ---------------------------------------------------------------------
  // Event traces
  // ---------------------------------------------------------------------

  /** The events the environment delivers to the game. */
  datatype Event =
    | Move(container: Option<Rect>, e: PointerEvent)
    | Frame(rect: Rect, distance: real, vLen: real, draws: seq<real>)
    | TimerFired(draws: seq<real>)
    | EffectRun(container: Option<Rect>, draws: seq<real>)

  /** An event can occur in s: frames get true roots and enough draws, the timer fires only when pending. */
  predicate CanOccur(s: GameState, ev: Event) {
    match ev
    case Move(_, _) => true
    case Frame(rect, distance, vLen, draws) => TickInputs(s, rect, distance, vLen, draws)
    case TimerFired(draws) => s.pending.Some? && 2 * MAX_SPAWN_ATTEMPTS <= |draws|
    case EffectRun(_, draws) => 2 * MAX_SPAWN_ATTEMPTS <= |draws|
  }

  function Apply(s: GameState, ev: Event): GameState
    requires CanOccur(s, ev)
  {
    match ev
    case Move(container, e) => AfterMove(s, container, e)
    case Frame(rect, distance, vLen, draws) => AfterTick(s, rect, distance, vLen, draws)
    case TimerFired(draws) => AfterRespawn(s, draws)
    case EffectRun(container, draws) => AfterPlace(s, container, draws)
  }

  predicate Admissible(s: GameState, evs: seq<Event>)
    decreases |evs|
  {
    |evs| == 0 || (CanOccur(s, evs[0]) && Admissible(Apply(s, evs[0]), evs[1..]))
  }

  function Run(s: GameState, evs: seq<Event>): GameState
    requires Admissible(s, evs)
    decreases |evs|
  {
    if |evs| == 0 then s else Run(Apply(s, evs[0]), evs[1..])
  }

  function CountRespawns(evs: seq<Event>): nat {
    if |evs| == 0 then 0 else (if evs[0].TimerFired? then 1 else 0) + CountRespawns(evs[1..])
  }

  /**
   * One capture per approach: along any run, the score never falls and rises
   * at most once per respawn, plus once more if the bug started active.
   */
  lemma {:induction false} ScoreBoundedByRespawns(s: GameState, evs: seq<Event>)
    requires Consistent(s) && Admissible(s, evs)
    ensures var t := Run(s, evs);
      && Consistent(t)
      && s.score <= t.score
      && t.score + (if t.caught then 0 else 1) <= s.score + CountRespawns(evs) + (if s.caught then 0 else 1)
    decreases |evs|
  {
    if |evs| > 0 {
      var s1 := Apply(s, evs[0]);
      match evs[0] {
        case Frame(rect, distance, vLen, draws) => CatchRule(s, rect, distance, vLen, draws);
        case _ =>
      }
      assert Consistent(s1);
      ScoreBoundedByRespawns(s1, evs[1..]);
    }
  }

  // ---------------------------------------------------------------------
  // The game object
  // ---------------------------------------------------------------------

  class Game {
    var mouseX: real
    var mouseY: real
    var bugX: real
    var bugY: real
    var caught: bool
    var score: nat
    var splatX: real
    var splatY: real
    var pending: Option<Ticket>

    function State(): GameState
      reads this
    {
      GameState(Point(mouseX, mouseY), Point(bugX, bugY), caught, score, Point(splatX, splatY), pending)
    }

    ghost predicate Valid()
      reads this
    {
      Consistent(State())
    }

    /** Mount: the refs' initial values, then the first run of the placement effect. */
    constructor (container: Option<Rect>, draws: seq<real>)
      requires 2 * MAX_SPAWN_ATTEMPTS <= |draws|
      ensures Valid()
      ensures State() == AfterPlace(Initial(), container, draws)
    {
      mouseX, mouseY := 0.0, 0.0;
      bugX, bugY := 50.0, 50.0;
      caught := false;
      score := 0;
      splatX, splatY := 0.0, 0.0;
      pending := None;
      new;
      PlaceBug(container, draws);
    }

    /** The effect body (lines run on mount and whenever the score changes): place the bug off the mount reference. */
    method PlaceBug(container: Option<Rect>, draws: seq<real>)
      requires Valid() && 2 * MAX_SPAWN_ATTEMPTS <= |draws|
      modifies this
      ensures Valid()
      ensures State() == AfterPlace(old(State()), container, draws)
    {
      if container.Some? {
        var rect := container.value;
        var p, _ := Spawn(rect.width, rect.height, Point(OFFSCREEN, OFFSCREEN), draws);
        bugX, bugY := p.x, p.y;
      }
    }

    /** handleMove: record the pointer relative to the container. */
    method HandleMove(container: Option<Rect>, e: PointerEvent)
      requires Valid()
      modifies this
      ensures Valid()
      ensures State() == AfterMove(old(State()), container, e)
      ensures old(State()).(mouse := State().mouse) == State()
    {
      if container.None? {
        return;
      }
      var rect := container.value;
      var clientX, clientY;
      match e {
        case TouchMove(touches) =>
          if |touches| == 0 {
            return;
          }
          clientX, clientY := touches[0].clientX, touches[0].clientY;
        case MouseMove(cx, cy) =>
          clientX, clientY := cx, cy;
      }
      mouseX, mouseY := clientX - rect.left, clientY - rect.top;
    }

    /** One gameLoop frame: flee or wander, then the catch check. Without a container it does nothing. */
    method Tick(container: Option<Rect>, distance: real, vLen: real, draws: seq<real>)
      requires Valid()
      requires container.Some? ==> TickInputs(State(), container.value, distance, vLen, draws)
      modifies this
      ensures Valid()
      ensures container.None? ==> State() == old(State())
      ensures container.Some? ==> State() == AfterTick(old(State()), container.value, distance, vLen, draws)
    {
      if container.None? {
        return;
      }
      var rect := container.value;
      ghost var s := State();
      var currentX, currentY := bugX, bugY;
      var mX, mY := mouseX, mouseY;
      var moveSpeed := MoveSpeed(score);
      if distance < SAFE_DISTANCE && !caught {
        var dir := Steer(Point(currentX, currentY), Point(mX, mY), distance, vLen, rect.width, rect.height);
        var moved := StepAndClamp(Point(currentX, currentY), dir, moveSpeed, rect.width, rect.height);
        currentX, currentY := moved.x, moved.y;
      } else if !caught {
        currentX := currentX + (draws[0] - 0.5) * JITTER;
        currentY := currentY + (draws[1] - 0.5) * JITTER;
        assert Point(currentX, currentY) == WanderMove(s.bug, draws[0], draws[1]);
      }
      assert Point(currentX, currentY) == Moved(s, rect, distance, vLen, draws);
      if distance < CATCH_RADIUS && !caught {
        caught := true;
        splatX, splatY := currentX, currentY;
        score := score + 1;
        pending := Some(Ticket(rect, Point(mX, mY)));
      }
      bugX, bugY := currentX, currentY;
    }

    /** The 800 ms timeout callback scheduled by a catch. */
    method Respawn(draws: seq<real>)
      requires Valid() && pending.Some? && 2 * MAX_SPAWN_ATTEMPTS <= |draws|
      modifies this
      ensures Valid()
      ensures State() == AfterRespawn(old(State()), draws)
    {
      var ticket := pending.value;
      caught := false;
      var p, _ := Spawn(ticket.rect.width, ticket.rect.height, ticket.mouse, draws);
      bugX, bugY := p.x, p.y;
      pending := None;
    }
  }
}
