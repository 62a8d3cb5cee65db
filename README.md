# Bug Hunter and Typewriter, in Dafny

This project models the two pieces of client-side logic in a personal portfolio website.

- **Bug Hunter** (`src/sections/Game.tsx`) is a mini-game. A bug flees the pointer inside a container, and catching it scores a point. The model covers:
  - the spawn search `spawnBug`;
  - the pointer handler `handleMove`;
  - one frame of `gameLoop`: flee with wall avoidance and a hard clamp, or wander with jitter;
  - the caught / score / splat / respawn round machine.
- **Typewriter** (`src/components/Typewriter.tsx`) reveals a text one UTF-16 code unit per timer step once a start delay has passed. JavaScript's `text.length` and `text[i]` count code units, so the model's text and display are sequences of `bv16` code units (`JsString`), not Dafny strings: a character outside the Basic Multilingual Plane takes two steps, and the display briefly ends in a lone high surrogate, as in the component.

Each file becomes one module: `BugHunter` in `bug_hunter.dfy` and `Typewriter` in `typewriter.dfy`. Both modules follow the same pattern:
- A class holds the fields the component updates in place. In Game these are the refs and state: `mouseX/mouseY`, `bugX/bugY`, `caught`, `score`, `splatX/splatY`, plus the pending respawn. In Typewriter they are `displayText`, `currentIndex` and `startTyping`.
- Each event is a method on that class. Its `ensures` ties the new state to a pure function of the old state: `AfterTick`, `AfterRespawn`, `AfterPlace`, `AfterMove`, `Started`, `StepOnce`.
- The lemmas state the properties of those functions.

How the model treats the game's inputs and behaviour:
- **Randomness.** Values of `Math.random()` arrive as a sequence of draws. The spawn search uses draws 2k and 2k+1 on attempt k. A wander frame uses draws 0 and 1.
- **Square roots.** The two `Math.sqrt` results a flee frame needs arrive as parameters `distance` and `vLen`. The requires clause says each is the true root (`IsRoot`). The flee direction is then computed exactly as the code does it:
  1. divide by the distance;
  2. add the ±2 wall push within 50 of a wall;
  3. divide by the new length unless it is zero;
  4. step by `moveSpeed`;
  5. clamp to a 20 px margin.
- **Squared distances.** The spawn search compares squared distances with 200². Lemma `RootBelow` shows this is the same as comparing the root.
- **The respawn timer.** The 800 ms callback closes over that tick's rectangle and pointer. The model records both as `pending: Option<Ticket>` when a catch fires. `Respawn` is that callback firing. The invariant `Valid()` says `caught` holds exactly while a respawn is pending.
- **The effect on mount.** This is `PlaceBug`, which spawns against (-999, -999). `useEffect` also re-runs it on every score change, so the model exposes it as an event.

Where the code differs from a natural reading of the game, the model follows the code:
- The bug has no velocity, friction, acceleration or restitution. It is steered directly, one `moveSpeed` step per frame.
- The catch test uses the distance measured *before* the frame's move. The splat freezes at the position *after* the move.
- Respawn measures against the pointer captured on the catch tick, not the pointer's position when the timer fires. Lemma `RespawnUsesCatchPointer` states this.
- Only the flee branch clamps. The wander branch can leave the bug anywhere.
- The effect re-runs after every catch and moves the bug while it is caught. Only the `splatPos` shown while caught stays frozen (`PlaceWhileCaughtKeepsDisplay`).

## Model

| member | source | states |
|---|---|---|
| `BugHunter.Spawn` | src/sections/Game.tsx:101-113 | spawnBug makes 1 to 10 attempts. The result is the candidate of its last attempt and is at least 200 from the reference point, unless all ten attempts were used. Every earlier candidate was closer than 200. All of this equals `SpawnFrom` |
| `BugHunter.SpawnFromSpec` | src/sections/Game.tsx:102-111 | The do-while loop stops on the first candidate at least 200 away, or on the tenth. The attempt count lies between 1 and 10, and all rejected candidates were too close |
| `BugHunter.SpawnCoordBounds` | src/sections/Game.tsx:105-106 | For a draw in [0,1) and an extent of at least 100, `r*(extent-100)+50` lies in [50, extent-50]. It is strictly below extent-50 once the extent exceeds 100 |
| `BugHunter.SpawnInBounds` | src/sections/Game.tsx:105-106 | With draws in [0,1) and a container at least 100×100, every spawned point lies 50 inside each edge |
| `BugHunter.MountSpawnFirstTry` | src/sections/Game.tsx:144-149 | Against the mount reference (-999,-999), the first candidate is always accepted (one attempt) |
| `BugHunter.RootBelow` | src/sections/Game.tsx:107-111 | For a true square root, `dist < c` holds exactly when `dx*dx+dy*dy < c*c`. So the squared comparisons decide the same as the code's `Math.sqrt` comparisons |
| `BugHunter.Relative` | src/sections/Game.tsx:130-131 | The relative pointer plus the container origin is the client position |
| `BugHunter.RelativeInjective` | src/sections/Game.tsx:130-131 | Two client points with the same container-relative position are equal: the conversion loses nothing |
| `BugHunter.Game.HandleMove` | src/sections/Game.tsx:116-135 | With a container and a position, the pointer becomes the client position minus the container origin. Otherwise nothing changes. Nothing but the pointer ever changes |
| `BugHunter.MoveSpeed` | src/sections/Game.tsx:171-174 | `moveSpeed = 6*(1 + 0.2*score)` is at least 6 for every score |
| `BugHunter.MoveSpeedIncreasing` | src/sections/Game.tsx:171-174 | `moveSpeed` strictly increases with the score, by 1.2 per point |
| `BugHunter.AvoidAxis` | src/sections/Game.tsx:182-188 | In a container at least 100 wide, the push is +2 within 50 of the low wall, -2 within 50 of the high wall, and 0 in between. It never exceeds ±2 |
| `BugHunter.Renormalised` | src/sections/Game.tsx:190-195 | With a non-zero length, the result times the length is the input, so the direction is kept. With a zero length the vector is left unchanged |
| `BugHunter.RenormalisedUnit` | src/sections/Game.tsx:190-195 | Dividing by the true non-zero length gives a vector of length exactly 1 |
| `BugHunter.AwayUnit` | src/sections/Game.tsx:177-179 | The pointer-to-bug offset divided by the true distance has length exactly 1 |
| `BugHunter.Steer` | src/sections/Game.tsx:177-195 | The flee direction is the pointer-to-bug unit vector, then the wall push, then the guarded renormalisation. Whenever the pushed vector is non-zero, the result has length exactly 1 |
| `BugHunter.ClampCoord` | src/sections/Game.tsx:201-206 | For an extent of at least 40, the clamped coordinate lies in [20, extent-20]. An in-range coordinate is unchanged. The result is always the input or one of the two bounds |
| `BugHunter.FleeMove` | src/sections/Game.tsx:197-206 | A flee step lands 20 inside each edge of a container at least 40×40, whatever the direction and speed |
| `BugHunter.StepAndClamp` | src/sections/Game.tsx:197-206 | Stepping by `dir*moveSpeed` and then applying the four clamps equals `FleeMove` and satisfies its bounds |
| `BugHunter.WanderMove` | src/sections/Game.tsx:208-212 | With draws in [0,1), a wander step moves each coordinate by an amount in [-2.5, 2.5) |
| `BugHunter.Game.Tick` | src/sections/Game.tsx:151-234 | One frame. Without a container nothing changes. Otherwise the new state is `AfterTick`: flee, wander or stay, then the catch check. The caught-exactly-while-pending invariant is kept |
| `BugHunter.FrozenWhileCaught` | src/sections/Game.tsx:176-231 | A frame while caught changes nothing: bug position, score, splat and pending respawn all stay |
| `BugHunter.FleeStaysInside` | src/sections/Game.tsx:176-206 | After a flee frame in a container at least 40×40, the bug lies in [20,w-20]×[20,h-20] |
| `BugHunter.WanderBounded` | src/sections/Game.tsx:208-212 | A wander frame (not caught, pointer at least 300 away) moves each coordinate by an amount in [-2.5, 2.5) |
| `BugHunter.CatchRule` | src/sections/Game.tsx:214-228 | The score changes exactly when the bug was not caught and the pre-move distance was below 30. It then rises by exactly one, the bug is caught, the splat equals the moved position, and the pending respawn holds this tick's rectangle and pointer. Otherwise caught, splat and pending stay |
| `BugHunter.SplatInside` | src/sections/Game.tsx:176-218 | A catch always follows a flee step, so the splat lies 20 inside each edge of a container at least 40×40 |
| `BugHunter.Game.Respawn` | src/sections/Game.tsx:221-227 | The timeout callback clears caught and places the bug at `spawnBug` of the captured rectangle against the captured pointer |
| `BugHunter.RespawnUsesCatchPointer` | src/sections/Game.tsx:221-226 | After respawn the bug is active again, with score and splat unchanged. Its new position does not depend on the current pointer. It is at least 200 from the catch-tick pointer, or all ten attempts were used |
| `BugHunter.Game.PlaceBug` | src/sections/Game.tsx:144-149 | The effect body moves the bug to `spawnBug(rect, -999, -999)` when the container exists. Otherwise it does nothing |
| `BugHunter.PlaceWhileCaughtKeepsDisplay` | src/sections/Game.tsx:266-271 | Re-running the effect while caught leaves the drawn position (the splat), the caught flag, the score and the pending respawn unchanged |
| `BugHunter.Game.constructor` | src/sections/Game.tsx:89-98 | Mount: pointer (0,0), bug (50,50), not caught, score 0, splat (0,0), followed by the first placement |
| `BugHunter.Initial` | src/sections/Game.tsx:90-98 | The initial state is not caught, has score 0 and has no pending respawn |
| `BugHunter.EventsKeepConsistent` | src/sections/Game.tsx:215-227 | Frames, respawns and placements all keep "caught exactly while a respawn is pending" |
| `BugHunter.ScoreBoundedByRespawns` | src/sections/Game.tsx:214-227 | Along any run of events the invariant holds and the score never falls. It rises at most once per respawn, plus once if the bug started active: one capture per approach |
| `Typewriter.Initial` | src/components/Typewriter.tsx:26-28 | The mounted state shows "" at index 0, not started, and is a prefix state for every text |
| `Typewriter.Started` | src/components/Typewriter.tsx:30-33 | The delay timeout sets startTyping and changes nothing else |
| `Typewriter.StepOnce` | src/components/Typewriter.tsx:38-45 | A step keeps `displayText == text[..currentIndex]`. When started and not at the end, it appends exactly `text[currentIndex]` and advances the index by one. Otherwise it changes nothing |
| `Typewriter.StepsAdvance` | src/components/Typewriter.tsx:41-44 | After the start, n steps advance the index by n, capped at the text's length, and keep the prefix state |
| `Typewriter.NoTypingBeforeStart` | src/components/Typewriter.tsx:39 | While startTyping is false, any number of steps leaves the state unchanged |
| `Typewriter.FixedPointAtEnd` | src/components/Typewriter.tsx:41 | Once the index reaches the text's length, the display is the whole text, and further steps change nothing |
| `Typewriter.FullTextAfterAllSteps` | src/components/Typewriter.tsx:26-44 | From the mounted state, the start followed by one step per code unit shows the whole text |
| `Typewriter.RunKeepsPrefixAndStart` | src/components/Typewriter.tsx:26-45 | Along any sequence of start and step events the prefix state holds, the index never decreases, and started stays started |
| `Typewriter.Typewriter.constructor` | src/components/Typewriter.tsx:25-28 | The component starts in the initial prefix state with the given text |
| `Typewriter.Typewriter.Start` | src/components/Typewriter.tsx:30-33 | startTyping becomes true, and displayText and currentIndex stay |
| `Typewriter.Typewriter.Step` | src/components/Typewriter.tsx:38-49 | The fields change as `StepOnce` says, the prefix invariant is kept, and startTyping stays |
| `Typewriter.Typewriter.TypeAll` | src/components/Typewriter.tsx:38-49 | Running the step timer to completion takes one step per remaining code unit and ends with `displayText == text` |

## Left out

- Rendering: styled-components, framer-motion props, the custom cursor, `setBugRenderPos` / `setCursorRenderPos`, the rotation and scale of the splat. Only the choice of drawn position (splat while caught) appears, as `Displayed`.
- Scheduling: `requestAnimationFrame`, `setTimeout` delays (800 ms, Typewriter's `delay` and `speed`), effect cleanup, and the fact that cleanup cancels only the animation frame and not the respawn timeout. Events are delivered explicitly instead: `Tick`, `Respawn`, `PlaceBug`, `HandleMove`, `Start`, `Step`.
- The unused `lastTime` bookkeeping in `gameLoop`.
- Floating-point rounding, `Math.sqrt` and `Math.random`: coordinates are reals, roots are supplied, random values are supplied draws.
- The `score` closure: the model's frames read the current score. In the code a frame between `setScore` and the next render reads the old score, but every such frame is caught and does not move.
- BugHunter.Game.Tick: requires a non-zero distance on the flee branch. A pointer exactly on an uncaught bug makes the code divide by zero and produce NaN coordinates, and reals cannot express NaN.
- BugHunter.Game.Tick: requires at least two draws on every frame, although the code draws only on a wander frame.
- BugHunter.Game.HandleMove: the code reading `touches[0]` of an empty touch list would throw. The model treats that event as changing nothing.
- BugHunter.SpawnInBounds: the upper bound is `<= width-50`, not `< width-50`, when the width is exactly 100, because then the interval [50, width-50) is empty and the code yields exactly 50.
- Typewriter: a change of `text` after mounting is not handled by the code (the index never resets), so the model fixes `text` at construction.
