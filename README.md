# Portfolio particle scenes, cursor rift and day-cycle theme — a Dafny model

This project models the interactive core of a React portfolio site:

- **the 3D particle scene.** 8000 particles form a planet of 4800 points on a golden-angle spiral and 3200 ring particles on random orbits. On demand they morph into text or icon shapes. The shapes come from scanning an off-screen canvas, and `fillBuffer` lays them out over the 8000 slots. A change between two shapes hides the swap behind an explode / hang / implode sequence. Dragging across the window winds the virtual clock.
- **the 2D particle field of the hero section.** 1500 particles drift home or are pulled towards the sampled points of "MB" or "WD".
- **the cursor rift.** A history of at most 20 pointer points is drawn as a tapered ribbon. Smoke particles spawn with each new point, and the ribbon retracts from its tail when the pointer is idle.
- **the day-cycle theme.** A table of seven colour stages is interpolated by the hour of the virtual clock, or locked to Noon or Midnight.
- **the virtual clock.** One virtual day lasts 240 s while the clock plays.
- **hand control.** A camera hand's wrist tilt winds the clock through a deadzone rate control. A fist sets off the explosion.

Each source component is one module:

| module | source file |
|---|---|
| `ShapeBuffers`, `ShapeMorph` | `ThreeParticleCanvas.jsx` |
| `AttractionField` | `ParticleCanvas.jsx` |
| `CursorTrail` | `CustomCursor.jsx` |
| `Theme` | `ThemeContext.jsx` |
| `VirtualClock` | `TimeContext.jsx` |
| `HandControl` | `GodModeController.jsx` and the flags of `GodModeContext.jsx` |

The shared modules are:

- `JsNumber`: JavaScript's `%`, `Math.round`, `Math.min`, `Math.max`, the clamp idiom, three.js `lerp` and `Math.random` draws, all on exact reals;
- `PixelGrid`: the raster scan over RGBA bytes that both canvases run;
- `Wrappers`: `Option`.

State the source changes in place is a class with `modifies` frames:

- the scene's generated attribute arrays, `SceneData`, with `array<real>` fields;
- the morph state and its target buffers, `ParticleSystem`;
- the drag ref, `Drag`;
- the hero field's particle array, `Field`;
- the cursor's refs, `Trail`;
- the clock, `Clock`;
- the hand controller and the god-mode flags, `Controller` and `GodMode`.

Pure computations are functions, and each comes with lemmas about it. Loops in the source are methods with loop invariants, proved against those functions.

Some inputs become parameters of the model:

- `Math.random` draws, constrained to [0,1) where a bound depends on it;
- the library functions `Math.sqrt`, `Math.cos`, `Math.sin`, `Math.hypot` and `Math.atan2`, as function-typed parameters;
- timestamps;
- the pixel bytes of the rendered text and icons;
- the detected hand landmarks.

## Model

| member | source | states |
|---|---|---|
| JsNumber.Lerp | src/components/canvas/ThreeParticleCanvas.jsx:447 | `lerp(x, y, t)` leaves `(1 - t)` of the distance to the goal `y` |
| JsNumber.LerpBetween | src/components/canvas/ThreeParticleCanvas.jsx:473 | with a rate in [0,1] a lerp step ends between the start and the goal, never overshooting |
| JsNumber.Rem | src/context/TimeContext.jsx:28 | JavaScript `a % b` for `b > 0`: `a` is a whole multiple of `b` plus the remainder, which has the sign of `a` and magnitude below `b` |
| JsNumber.Round | src/context/ThemeContext.jsx:29 | `Math.round` gives the nearest integer, halves rounding up |
| JsNumber.RoundBetween | src/context/ThemeContext.jsx:29 | rounding a value between two integers stays between them |
| JsNumber.RoundWhole | src/context/ThemeContext.jsx:29 | rounding an integer gives it back |
| JsNumber.Clamp | src/components/common/GodModeController.jsx:92 | `Math.max(lo, Math.min(hi, x))` lies in [lo,hi], is `x` inside the range and the nearer bound outside it |
| JsNumber.Min | src/components/common/CustomCursor.jsx:118 | `Math.min` is one of its arguments and at most both |
| JsNumber.Max | src/components/common/CustomCursor.jsx:172 | `Math.max` is one of its arguments and at least both |
| PixelGrid.ByteIndexInBounds | src/components/canvas/ParticleCanvas.jsx:38 | the byte index `(y * w + x) * 4 + channel` of a pixel inside the image lies inside the `w * h * 4` byte buffer |
| PixelGrid.Scan | src/components/canvas/ParticleCanvas.jsx:36-43 | the nested grid scan returns exactly the cells inside the image, on the gap grid, whose channel byte exceeds the threshold, each once, in row-major order |
| AttractionField.TextPixelMeans | src/components/canvas/ParticleCanvas.jsx:36-39 | a kept point is a multiple of 6 on both axes inside the canvas whose alpha byte `(y * w + x) * 4 + 3` exceeds 128 |
| AttractionField.ScanText | src/components/canvas/ParticleCanvas.jsx:32-43 | `scanText` returns every kept point and nothing else, each once, in scan order |
| AttractionField.TargetIndex | src/components/canvas/ParticleCanvas.jsx:106 | `i % targetPoints.length` is a valid index, and is `i` itself when there are more points than `i` |
| AttractionField.TargetsWrap | src/components/canvas/ParticleCanvas.jsx:106 | particles `i` and `i + n` share a target point when there are `n` points |
| AttractionField.Approach | src/components/canvas/ParticleCanvas.jsx:116-117 | one physics step leaves `(1 - speed)` of the offset to the target |
| AttractionField.AttractionContracts | src/components/canvas/ParticleCanvas.jsx:104-117 | with a target, each axis offset to the assigned point shrinks to 0.9 of itself, the particle never overshoots, and only the position changes |
| AttractionField.DistanceShrinks | src/components/canvas/ParticleCanvas.jsx:104-117 | with a target, the squared distance to the assigned point is multiplied by 0.81 each frame and so never grows |
| AttractionField.HomeContracts | src/components/canvas/ParticleCanvas.jsx:100-123 | without a target, the particle closes 5% of the way home and then moves by a jitter in [-0.1, 0.1) per axis; only the position changes |
| AttractionField.ApproachManyGeometric | src/components/canvas/ParticleCanvas.jsx:116-117 | after `n` frames towards a fixed target the offset is `(1 - speed)^n` times the initial offset |
| AttractionField.ApproachManyBetween | src/components/canvas/ParticleCanvas.jsx:116-117 | with a rate in [0,1], every frame of a run stays between the start and the target |
| AttractionField.NewParticle | src/components/canvas/ParticleCanvas.jsx:54-65 | even particles are `#52525b` and odd ones `#a1a1aa`; with unit draws the home lies on the canvas and the size in [1,4) |
| AttractionField.Field.constructor | src/components/canvas/ParticleCanvas.jsx:5-6 | mounting starts with no particles and the empty shapes `none`, `MB`, `WD` |
| AttractionField.Field.Init | src/components/canvas/ParticleCanvas.jsx:48-67 | `init` builds a fresh pool of exactly 1500 particles, particle `i` built from draw `i`, leaving the shapes alone |
| AttractionField.Field.LoadShapes | src/components/canvas/ParticleCanvas.jsx:71-79 | after the font wait, `MB` and `WD` hold exactly the kept points of their renderings, each once and in strict row-major order, so each list's length (the modulus of `i % targetPoints.length`) is the number of kept points; the other shapes are unchanged |
| AttractionField.Field.TargetPoints | src/components/canvas/ParticleCanvas.jsx:96 | an unknown shape key yields no points |
| AttractionField.Field.Animate | src/components/canvas/ParticleCanvas.jsx:93-123 | one `animate` pass moves every particle in place by exactly one `Step` with its own jitter draws |
| AttractionField.Field.TargetSelection | src/components/canvas/ParticleCanvas.jsx:96-97 | particles are attracted exactly when the shape is not `none`, is known, and has at least one point |
| CursorTrail.PointWidth | src/components/common/CustomCursor.jsx:118 | the stroke width never exceeds 50, is at least 12 for a non-negative distance, and below the cap is at least the distance |
| CursorTrail.PointWidthMonotone | src/components/common/CustomCursor.jsx:118 | a faster stroke is never narrower |
| CursorTrail.NewPoint | src/components/common/CustomCursor.jsx:118-125 | a new point sits at the pointer with the dynamic width; with unit draws the width lies in [12,50] and both jitters in [0, width/2) |
| CursorTrail.JitterBelowHalf | src/components/common/CustomCursor.jsx:123-124 | `Math.random() * width * 0.5` lies in [0, width/2) for a positive width |
| CursorTrail.NewSmoke | src/components/common/CustomCursor.jsx:133-141 | a smoke particle starts with life 1; with unit draws its decay is in [0.01,0.03), its size in [2,6) and its vertical speed in (-1.5,-0.5] |
| CursorTrail.Spawn | src/components/common/CustomCursor.jsx:131-142 | a new point spawns two particles when the count draw exceeds 0.5 and one otherwise, all at full life |
| CursorTrail.Cap | src/components/common/CustomCursor.jsx:127-128 | after an `unshift` the history is cut back to 20 points by dropping only the oldest one |
| CursorTrail.StepSmoke | src/components/common/CustomCursor.jsx:204-206 | a frame takes `decay` off a particle's life and keeps its velocity, decay and size |
| CursorTrail.Survivors | src/components/common/CustomCursor.jsx:195-211 | the particles after a frame are never more than before, and all of them are alive |
| CursorTrail.SweepStep | src/components/common/CustomCursor.jsx:195-211 | one step of the backward sweep, stepping particle `i` in place or splicing it out, extends the processed suffix by one |
| CursorTrail.SurvivorsMembership | src/components/common/CustomCursor.jsx:204-210 | a particle is in the list after a frame exactly when it is some old particle, stepped, with positive life |
| CursorTrail.SurvivorsAppend | src/components/common/CustomCursor.jsx:195-211 | splicing keeps the order: survivors of a concatenation are the survivors of each part, concatenated |
| CursorTrail.SurvivorsSingle | src/components/common/CustomCursor.jsx:204-210 | a particle whose life is spent disappears at once, and one with life left stays, stepped |
| CursorTrail.TaperFactor | src/components/common/CustomCursor.jsx:170-172 | `Math.max(0, 1 - i / divisor)` lies in [0,1], is positive below the divisor and 0 from it on |
| CursorTrail.TaperFalls | src/components/common/CustomCursor.jsx:170-172 | later points along the rift never get a larger taper |
| CursorTrail.TaperOffsets | src/components/common/CustomCursor.jsx:162-179 | the drawing loop yields one edge pair per segment, each the tapered width plus the tapered jitter of its first point |
| CursorTrail.EdgeBounds | src/components/common/CustomCursor.jsx:172-178 | edge offsets lie between 0 and the untapered width plus jitter |
| CursorTrail.Trail.constructor | src/components/common/CustomCursor.jsx:10-18 | mounting parks the pointer at (-100,-100) with no history, no smoke, no frames and no closing |
| CursorTrail.Trail.MouseMove | src/components/common/CustomCursor.jsx:28-32 | a move stores the pointer, stamps the time and marks the pointer inside the viewport, changing nothing else |
| CursorTrail.Trail.MouseLeave | src/components/common/CustomCursor.jsx:33-36 | leaving marks the pointer outside and stamps the time, changing nothing else |
| CursorTrail.Trail.Close | src/components/common/CustomCursor.jsx:91-107 | the idle phase snapshots the length once, drops the oldest point only when more than 60 ms passed since the last drop, and resets the snapshot when the history is empty |
| CursorTrail.Trail.Record | src/components/common/CustomCursor.jsx:109-143 | the active phase ends closing; when there is no point yet or the pointer moved more than 8, it prepends the new point, caps the history and appends the spawned smoke, otherwise nothing changes |
| CursorTrail.Trail.UpdateSmoke | src/components/common/CustomCursor.jsx:194-212 | the backward loop with `splice` leaves exactly the survivors of the old particles, in order |
| CursorTrail.Trail.Frame | src/components/common/CustomCursor.jsx:63-216 | one frame counts itself and skips all work when idle with nothing to draw. Otherwise an idle frame closes exactly as `Close` does (snapshot, 60 ms throttled drop, reset when empty), and an active frame records exactly as `Record` does (the new point with its width and jitters, capped). The smoke becomes the survivors of the old smoke plus any spawned smoke when a canvas is mounted. The history stays capped |
| CursorTrail.Trail.TaperNeverClamps | src/components/common/CustomCursor.jsx:157-172 | while the rift is drawn the divisor exceeds every segment index, so every drawn segment keeps a positive width |
| CursorTrail.RetractionPace | src/components/common/CustomCursor.jsx:91-107 | over any run of idle closing steps (each step `ClosesFrom` the one before: snapshot, drop the oldest point once more than 60 ms have passed), the final history is a prefix of the first and loses at most one point per step, so a history of `n` points needs at least `n` idle frames to empty |
| HandControl.RotationSpeed | src/components/common/GodModeController.jsx:94-103 | the rate is zero exactly within 0.2 rad of upright, has the sign of the tilt outside it, and never exceeds `(PI/2 - 0.2) * 0.1` for a clamped angle |
| HandControl.SpeedSymmetricMonotone | src/components/common/GodModeController.jsx:99-103 | the opposite tilt gives the opposite rate, and more tilt never gives less rate |
| HandControl.WrapTime | src/components/common/GodModeController.jsx:108-109 | `((t % 24) + 24) % 24` lies in [0,24) |
| HandControl.WrapIsResidue | src/components/common/GodModeController.jsx:109 | the double remainder equals the floored residue of `t` modulo 24, negative `t` included |
| HandControl.WrapProperties | src/components/common/GodModeController.jsx:109 | a reading already on the dial is kept, and a day more or less gives the same reading |
| HandControl.ExtendedAmong | src/components/common/GodModeController.jsx:114-121 | the count of extended fingers is at most the number examined, 0 exactly when none is extended and full exactly when all are |
| HandControl.CountExtended | src/components/common/GodModeController.jsx:114-121 | the finger loop counts exactly the extended fingers among the four |
| HandControl.OpenHands | src/components/common/GodModeController.jsx:122-123 | four extended fingers make an open hand and none makes a fist |
| HandControl.GodMode.constructor | src/context/GodModeContext.jsx:6-8 | god mode starts off, with rotation 0 and no explosion |
| HandControl.Controller.constructor | src/components/common/GodModeController.jsx:13-22 | the dialog and camera start off, the hour accumulator at noon and the detection stamp at 0 |
| HandControl.Controller.ClickHandButton | src/components/common/GodModeController.jsx:145 | the hand button stops god mode when it is on, and otherwise toggles the dialog and nothing else |
| HandControl.Controller.StartGodMode | src/components/common/GodModeController.jsx:46-53 | starting turns the camera and god mode on, closes the dialog, pauses the clock and stamps the detection time |
| HandControl.Controller.StopGodMode | src/components/common/GodModeController.jsx:55-63 | stopping turns the camera and god mode off, lets the clock play, and clears the explosion and the rotation |
| HandControl.Controller.TrackHand | src/components/common/GodModeController.jsx:76-123 | a seen hand stamps the detection, pauses the clock, adds the clamped tilt's rate to the accumulator, shows it wrapped onto the dial, and explodes exactly when fewer than three fingers are extended |
| HandControl.Controller.DetectHands | src/components/common/GodModeController.jsx:65-140 | nothing happens before the camera and model are ready; a hand is tracked; with no hand for more than 3000 ms the clock plays again and the explosion stops, otherwise nothing changes |
| VirtualClock.HoursToAdd | src/context/TimeContext.jsx:21-26 | the hours added are the elapsed milliseconds divided by 10000: never negative forward in time, one hour per 10 s and a day per 240 s |
| VirtualClock.AdvanceOnDial | src/context/TimeContext.jsx:19-29 | a paused frame keeps the hour; a playing frame puts any non-negative hour on the dial [0,24), 24 included, and without a wrap adds exactly the elapsed hours |
| VirtualClock.FramesCompose | src/context/TimeContext.jsx:19-30 | two playing frames land where one frame over the same span would, so the clock does not depend on the frame rate |
| VirtualClock.ResumeWithoutJump | src/context/TimeContext.jsx:19-30 | paused frames keep the timestamp current, so resuming adds only the time since the last frame |
| VirtualClock.Clock.constructor | src/context/TimeContext.jsx:12-14 | the clock starts at noon, playing, with the mount timestamp |
| VirtualClock.Clock.Tick | src/context/TimeContext.jsx:19-31 | `tick` advances the hour while playing and always records the timestamp; a playing tick puts any non-negative reading on the dial, and a paused one keeps a reading on the dial there |
| VirtualClock.Clock.SetTime | src/context/TimeContext.jsx:12 | `setTime` changes only the hour |
| VirtualClock.Clock.SetPlaying | src/context/TimeContext.jsx:13 | `setIsPlaying` changes only the playing flag |
| Theme.HexValue | src/context/ThemeContext.jsx:19-21 | a hexadecimal digit of either case reads as a value below 16 |
| Theme.HexToRgb | src/context/ThemeContext.jsx:18-23 | `hexToRgb` reads three bytes, channel `k` from characters `2k+1` and `2k+2` |
| Theme.RgbRoundTrip | src/context/ThemeContext.jsx:18-23 | parsing the lower-case spelling of a byte triple gives the triple back |
| Theme.HexRoundTrip | src/context/ThemeContext.jsx:18-23 | spelling out a parsed lower-case colour gives the same text back |
| Theme.StagesWellFormed | src/context/ThemeContext.jsx:7-15 | every colour of the stage table is a well-formed `#rrggbb` colour |
| Theme.StageTable | src/context/ThemeContext.jsx:7-15 | there are seven stages at hours 0, 4, ..., 24, strictly increasing, and the last repeats the first at hour 24 |
| Theme.NatToString | src/context/ThemeContext.jsx:30 | a channel prints as a non-empty string of decimal digits |
| Theme.NatToStringRoundTrip | src/context/ThemeContext.jsx:30 | reading a printed channel back gives the channel |
| Theme.MixChannelBounds | src/context/ThemeContext.jsx:29 | a mixed channel is the start at factor 0, the end at factor 1, and between them for a factor in [0,1] |
| Theme.MixInRange | src/context/ThemeContext.jsx:26-39 | mixing two byte triples with a factor in [0,1] gives a byte triple, and the endpoints at factors 0 and 1 |
| Theme.FindStage | src/context/ThemeContext.jsx:50 | `find` by name returns the first row with that name, or none when no row has it |
| Theme.NamedStages | src/context/ThemeContext.jsx:50-60 | Noon is row 3 and Midnight is row 0 |
| Theme.FirstBracket | src/context/ThemeContext.jsx:71-77 | the search returns a start row below the last, and 0 only when it started at 0 or found nothing |
| Theme.StageIndex | src/context/ThemeContext.jsx:71-77 | for an hour in [0,24) the start stage is the one whose half-open interval holds it; otherwise row 0 |
| Theme.BracketFound | src/context/ThemeContext.jsx:71-77 | the search from any row finds the bracketing interval of an hour it has not passed, and falls back to 0 outside [0,24) |
| Theme.FindStartIndex | src/context/ThemeContext.jsx:71-77 | the `for` loop with `break` computes the start stage |
| Theme.ProgressInUnit | src/context/ThemeContext.jsx:82-83 | for an hour in [0,24) the progress through the interval lies in [0,1) |
| Theme.CurrentTheme | src/context/ThemeContext.jsx:46-92 | `currentTheme` computes the theme of the mode and the hour |
| Theme.AutoTheme | src/context/ThemeContext.jsx:70-91 | the auto branch interpolates between the bracketing stages as the theme function says |
| Theme.LockedModes | src/context/ThemeContext.jsx:49-68 | light shows Noon and dark shows Midnight whatever the hour |
| Theme.AutoInRange | src/context/ThemeContext.jsx:79-91 | in auto mode the name is the start stage's, and every channel of every colour is a byte for any hour in [0,24) |
| Theme.AutoAtStageHour | src/context/ThemeContext.jsx:82-91 | at a stage's own hour the auto mode shows that stage's name and colours, the particle colour in its `rgb(...)` spelling |
| Theme.HourTwentyFourExtrapolates | src/context/ThemeContext.jsx:71-83 | hour 24 finds no interval, falls back to row 0 with progress 6, and extrapolates an accent channel of 878 |
| ShapeBuffers.SphereCountIsSixtyPercent | src/components/canvas/ThreeParticleCanvas.jsx:185 | the planet has `floor(8000 * 0.6)` = 4800 particles |
| ShapeBuffers.ToScene | src/components/canvas/ThreeParticleCanvas.jsx:286-298 | a canvas pixel maps to the scene by centring, scaling by `(1 / 0.2) * 0.08` and shifting right by 25 on windows wider than 1024; z is 0 |
| ShapeBuffers.ToSceneInjective | src/components/canvas/ThreeParticleCanvas.jsx:295-296 | distinct pixels give distinct scene points |
| ShapeBuffers.LitMeans | src/components/canvas/ThreeParticleCanvas.jsx:290-293 | a pixel is lit exactly when it is inside the canvas and its red byte exceeds 50 |
| ShapeBuffers.ScanShape | src/components/canvas/ThreeParticleCanvas.jsx:284-302 | `scan` returns the scene point of every lit pixel and nothing else, without duplicates, all at z = 0 |
| ShapeBuffers.SlotFlag | src/components/canvas/ThreeParticleCanvas.jsx:314-333 | a slot is flagged 1 exactly when it is past the main shape and there is a secondary shape, and 0 otherwise |
| ShapeBuffers.Blank | src/components/canvas/ThreeParticleCanvas.jsx:219-222 | the sphere's entry has buffers of the scene's sizes, 3 x 8000 coordinates and 8000 flags |
| ShapeBuffers.FillBuffer | src/components/canvas/ThreeParticleCanvas.jsx:305-337 | `fillBuffer` returns fresh buffers holding the main points in order, then the secondary shape repeated and offset by (+40,-30), or the origin when there is none, with the secondary flags |
| ShapeBuffers.Layout | src/components/canvas/ThreeParticleCanvas.jsx:305-337 | the buffer contents of `fillBuffer` are the layout of the main and secondary shapes |
| ShapeBuffers.MainPrefix | src/components/canvas/ThreeParticleCanvas.jsx:310-314 | slots below the main shape's length hold its points in order, unflagged |
| ShapeBuffers.TailWraps | src/components/canvas/ThreeParticleCanvas.jsx:315-329 | the tail index stays inside the secondary shape, repeats with its length as period, gives the offset point, and is flagged |
| ShapeBuffers.EmptySecondaryTail | src/components/canvas/ThreeParticleCanvas.jsx:330-333 | without a secondary shape the tail sits at the origin, unflagged |
| ShapeBuffers.ShellY | src/components/canvas/ThreeParticleCanvas.jsx:188 | the spiral height runs from 1 at the first particle to -1 at the last, always within [-1,1] |
| ShapeBuffers.ShellRadiusArgument | src/components/canvas/ThreeParticleCanvas.jsx:189 | the argument of `Math.sqrt(1 - y * y)` lies in [0,1] |
| ShapeBuffers.SphereRadius | src/components/canvas/ThreeParticleCanvas.jsx:186-197 | where `sqrt` squares back and `cos^2 + sin^2 = 1`, every planet particle lies at distance 20 from the centre |
| ShapeBuffers.RingAngle | src/components/canvas/ThreeParticleCanvas.jsx:202 | a ring angle from a unit draw lies in [0, 2PI) |
| ShapeBuffers.RingDist | src/components/canvas/ThreeParticleCanvas.jsx:203 | ring distances lie in [36, 86), outside the planet |
| ShapeBuffers.RingSpeed | src/components/canvas/ThreeParticleCanvas.jsx:204 | the angular speed lies in (20/86, 20/36] and times the distance gives 20 |
| ShapeBuffers.InnerOrbitsFaster | src/components/canvas/ThreeParticleCanvas.jsx:203-204 | a nearer orbit is a faster one |
| ShapeBuffers.RingPoint | src/components/canvas/ThreeParticleCanvas.jsx:210-212 | a ring particle rests in the plane y = 0 |
| ShapeBuffers.RingRadius | src/components/canvas/ThreeParticleCanvas.jsx:210-212 | where `cos^2 + sin^2 = 1`, a ring particle rests at its orbit distance from the centre |
| ShapeBuffers.OrbitOf | src/components/canvas/ThreeParticleCanvas.jsx:198-206 | the ring flag is 0 on the planet and 1 on the rings, and a ring orbit lies outside the planet with speed times distance 20 |
| ShapeBuffers.SizeEntry | src/components/canvas/ThreeParticleCanvas.jsx:199-207 | planet sizes lie in [0.1,0.4) and ring sizes in [0.1,0.3) for unit draws |
| ShapeBuffers.SceneData.constructor | src/components/canvas/ThreeParticleCanvas.jsx:176-216 | the generation gives every particle its resting point, orbit words and size |
| ShapeBuffers.SceneData.GeneratePlanet | src/components/canvas/ThreeParticleCanvas.jsx:187-200 | the planet loop places the first 4800 particles on the spiral with ring flag 0 and their sizes |
| ShapeBuffers.SceneData.SetPlanetSlot | src/components/canvas/ThreeParticleCanvas.jsx:188-199 | one pass writes particle `i`'s three coordinates, ring flag and size, and nothing else |
| ShapeBuffers.SceneData.GenerateRings | src/components/canvas/ThreeParticleCanvas.jsx:201-213 | the ring loop gives the remaining 3200 particles their orbits, sizes and resting points, leaving the planet's entries alone |
| ShapeBuffers.SceneData.SetRingSlot | src/components/canvas/ThreeParticleCanvas.jsx:202-212 | one pass writes particle `i`'s orbit words, size and resting point, and nothing else |
| ShapeMorph.ResolveKey | src/components/canvas/ThreeParticleCanvas.jsx:383-384 | `contact` resolves to EMAIL or LI by the contact index; every other key stands for itself; the result is never `contact` |
| ShapeMorph.NextContact | src/components/canvas/ThreeParticleCanvas.jsx:369 | the contact timer always moves to the other icon |
| ShapeMorph.ContactAlternates | src/components/canvas/ThreeParticleCanvas.jsx:362-370 | each tick changes the contact key and two ticks bring it back |
| ShapeMorph.FrameKeepsBounds | src/components/canvas/ThreeParticleCanvas.jsx:443-492 | every frame keeps the explosion in [0,2], the morph in [0,1] and the hang counter in range, and moves the morph 5% of the way to its goal |
| ShapeMorph.FrameNeverExplodes | src/components/canvas/ThreeParticleCanvas.jsx:446-481 | a frame never starts an explosion; only a change of shape does |
| ShapeMorph.ExplodingRises | src/components/canvas/ThreeParticleCanvas.jsx:446-452 | while exploding the gap to 1.2 shrinks by 10% a frame, and the hang starts with counter 0 exactly when the value was past 1.1 |
| ShapeMorph.ImplodingFalls | src/components/canvas/ThreeParticleCanvas.jsx:472-477 | while imploding the value falls by 3% a frame and settles at exactly 0 once below 0.01 |
| ShapeMorph.ImplodingGap | src/components/canvas/ThreeParticleCanvas.jsx:472-477 | an implosion from at most 2 is, while it lasts, at most `2 * 0.97^n` after `n` frames, and a scene at rest stays at rest |
| ShapeMorph.ImplosionEnds | src/components/canvas/ThreeParticleCanvas.jsx:472-477 | without the hand, an implosion from any value a frame keeps comes to rest within 181 frames, closing the rest, explode, hang, implode cycle |
| ShapeMorph.HangDuration | src/components/canvas/ThreeParticleCanvas.jsx:453-470 | the hang counter goes up by one a frame, and the hang turns into an implosion on the frame that takes it past 20 |
| ShapeMorph.ExplodingGap | src/components/canvas/ThreeParticleCanvas.jsx:446-452 | an explosion from [0,1.2] is within `1.2 * 0.9^n` of its peak after `n` frames |
| ShapeMorph.ExplosionEnds | src/components/canvas/ThreeParticleCanvas.jsx:446-452 | without the hand, an explosion reaches its hang within 25 frames |
| ShapeMorph.ParticleSystem.Lookup | src/components/canvas/ThreeParticleCanvas.jsx:393 | a known key gives its own shape and an unknown key falls back to the sphere |
| ShapeMorph.ParticleSystem.constructor | src/components/canvas/ThreeParticleCanvas.jsx:162-224 | mounting starts with zeroed target buffers, only the all-zero sphere shape, both keys on the sphere, and the animation at rest |
| ShapeMorph.ParticleSystem.InitShapes | src/components/canvas/ThreeParticleCanvas.jsx:339-347 | MB, CODE, EMAIL and LI are laid out with the bug as the secondary shape, the other shapes are kept, and the shapes become ready |
| ShapeMorph.ParticleSystem.ContactTick | src/components/canvas/ThreeParticleCanvas.jsx:367-370 | a timer tick moves only the contact index, to the other icon |
| ShapeMorph.ParticleSystem.TargetShapeChanged | src/components/canvas/ThreeParticleCanvas.jsx:365-375 | a section other than contact resets the contact index to 0; nothing else changes |
| ShapeMorph.ParticleSystem.Load | src/components/canvas/ThreeParticleCanvas.jsx:397-404 | `array.set` copies a shape's positions and flags into the target buffers |
| ShapeMorph.ParticleSystem.KeyChanged | src/components/canvas/ThreeParticleCanvas.jsx:380-434 | nothing happens before the shapes are ready or for the same key. Leaving the sphere loads the new shape at once. A shape-to-shape change stages the new shape and explodes. Returning to the sphere goes to rest |
| ShapeMorph.ParticleSystem.Frame | src/components/canvas/ThreeParticleCanvas.jsx:436-492 | a frame advances the animation as the frame function says, adds `delta` to the time uniform, sets the rotation from the hour, and swaps in the staged shape on the last hang frame |
| ShapeMorph.ParticleSystem.PullAndMorph | src/components/canvas/ThreeParticleCanvas.jsx:483-492 | the hand pulls the explosion 10% towards 2, and the morph moves 5% towards its goal |
| ShapeMorph.ParticleSystem.Transit | src/components/canvas/ThreeParticleCanvas.jsx:446-481 | the state machine's step follows the transition function and copies the staged shape into the buffers exactly on the swap frame, clearing it |
| ShapeMorph.SwapShowsCurrentShape | src/components/canvas/ThreeParticleCanvas.jsx:453-470 | once the scene implodes after a change, the target buffer holds the current key's shape |
| ShapeMorph.HoursDelta | src/components/canvas/ThreeParticleCanvas.jsx:515 | a drag across at most the window width is at most a day either way; a full width is 24 hours and no movement is 0 |
| ShapeMorph.DragReachesTwentyFour | src/components/canvas/ThreeParticleCanvas.jsx:516-518 | as written, half a window to the right of a noon drag start gives hour 24, which is off the dial and makes the theme extrapolate an invalid accent colour |
| ShapeMorph.DragTimeOnDial | src/components/canvas/ThreeParticleCanvas.jsx:516-518 | with the wrap applied from 24 on, a drag from the dial by at most a day stays in [0,24) and differs from the plain sum by a whole day at most |
| ShapeMorph.DragTimeAsWrittenRange | src/components/canvas/ThreeParticleCanvas.jsx:516-518 | as written, a drag by at most a window width from a reading in [0,24] stays in [0,24], and reaches 24 exactly when the plain sum is 24 |
| ShapeMorph.DragFixOnlyAtTwentyFour | src/components/canvas/ThreeParticleCanvas.jsx:516-518 | the corrected wrap differs from the written one only when the plain sum is exactly 24 |
| ShapeMorph.Drag.constructor | src/components/canvas/ThreeParticleCanvas.jsx:163 | the drag ref starts released at x 0 and hour 0 |
| ShapeMorph.Drag.PointerDown | src/components/canvas/ThreeParticleCanvas.jsx:502-510 | pressing records the pointer and the current hour and pauses the clock |
| ShapeMorph.Drag.PointerMove | src/components/canvas/ThreeParticleCanvas.jsx:512-520 | while pressed, the clock shows the start hour plus the dragged hours, wrapped as written (`+ 24` below 0, `% 24` above 24); from a start in [0,24] with both pointers inside the window the reading lies in [0,24] and is 24 exactly when the plain sum is 24; otherwise nothing changes |
| ShapeMorph.Drag.PointerUp | src/components/canvas/ThreeParticleCanvas.jsx:522-526 | releasing clears the pressed flag and lets the clock play |

## Left out

- The random reorderings (`sort(() => Math.random() - 0.5)`) after both scans: the model keeps the scan order. The reordering only permutes the points, and the properties above are stated on membership and distinctness, which it preserves.
- Drawing the text and icons on the off-screen canvases (fonts, strokes, the beetle outline): the rendered RGBA bytes are an input of the scans.
- The WebGL shaders, the `colors` and `pos` arrays the scene never fills, and the `uScale` and colour uniforms. This covers the core and ring colour lerps towards night or day colours at ThreeParticleCanvas.jsx:494-498, which only feed the fragment shader.
- All canvas drawing: the rift's trigonometry (`atan2`, `cos`, `sin` of the perpendicular), the smoke's fill, and the particle outlines. The rift is modelled up to the edge offsets the drawing loop computes.
- The cursor head's opacity and transform styles, the canvas resize handlers, the CSS variables the theme provider writes, and the drag handlers' `e.stopPropagation()` and `document.body.style.cursor` writes (ThreeParticleCanvas.jsx:504, 509, 525).
- The hand controller's `debugInfo` display, the dialog's markup, the webcam component, and loading the landmark model. Readiness of the video and the model is a boolean input, and the detected landmarks are an input.
- The scheduling: `requestAnimationFrame`, `setInterval(…, 4000)`, `setTimeout(initShapes, 500)` and the font-loading promise become explicit method calls. The timestamps, including `Date.now()` and `performance.now()`, are parameters.
- `Math.random`, `Math.sqrt`, `Math.cos`, `Math.sin`, `Math.hypot` and `Math.atan2` are inputs. Bounds that depend on a draw assume it lies in [0,1). The planet and ring radii are proved where the library functions obey `sqrt(a)^2 = a` and `cos^2 + sin^2 = 1`.
- Floating point: numbers are exact reals, and `Float32Array` rounding is not modelled. The 32-bit buffers of the scene are `array<real>`.
- `interpolateColorSpace` and `interpolateColorString` differ only in the joining text, and are modelled by one mixing function and two formatting functions.
- ShapeMorph.ParticleSystem.Frame: the hand-explosion and morph uniforms are stated by the frame function, and the colour uniforms are not modelled, as listed above.
- HandControl.Controller.DetectHands: the next `requestAnimationFrame` callback is the caller's next call, not part of the method.

## Findings

| source | as written | input that shows it | evidently intended | confidence | as-written member | corrected member |
|---|---|---|---|---|---|---|
| src/components/canvas/ThreeParticleCanvas.jsx:517-518 | `if (newTime > 24) newTime %= 24` leaves an hour of exactly 24 on the clock, outside the dial [0,24) that the rest of the site assumes. The theme lookup then finds no interval, falls back to Midnight with progress 6 and extrapolates channels such as 878. `Drag.PointerMove` keeps the handler as written; `DragTime` is the corrected wrap. | a drag started at hour 12 at x = 0, pointer moved to x = 500 in a 1000-pixel window | reduce from 24 on (`>= 24`), so the hour stays in [0,24) | not executed | ShapeMorph.DragReachesTwentyFour | ShapeMorph.DragTimeOnDial |
