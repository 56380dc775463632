# srocs-di: scenario engine, block replenishment and visualisation rules

This project models the experiment-specific code of the SRoCS "di" (distributed
intelligence) setup for the ARGoS simulator, in Dafny. Two components are covered.

**Loop functions.** The first part is the data model of the scenario engine.
- Actions (add an entity, add a timer, terminate) each carry an immutable delay.
- Conditions (any-of, all-of, entity near a position, timer equals a value) hold a `Once` flag, an `Enabled` flag that starts true, and a list of shared actions. The any/all combinators own an ordered list of child conditions.
- The engine state is:
  - a tick-keyed multimap of pending actions;
  - a table of named timers;
  - the list of added entities;
  - the terminate flag.

The second part is the block-replenishment rule run before every step.
- The blocks are counted as inside the construction site or in the foraging area.
- When too few blocks are foraging, random positions are tried until one is:
  - outside the site;
  - at least 0.25 m from every builderbot;
  - free of collisions once the block is placed.
- That position gets one new block, named `block<N>`.

**Qt-OpenGL user functions.**
- Camera paths are configured from XML; the active path is selected from the simulation clock, and the selection is latched: it runs only when the clock differs from the one seen by the previous call.
- The `draw` debug buffer of each robot is turned into arrows and rings.
- Blocks follow a builderbot that the user drags or rotates with the mouse wheel.

Modules:
- `Base`: `UInt32` with explicit wrap-around, `Option`, `Vec3`, squared distance.
- `ScenarioEngine`: actions, conditions, the pending-action multimap and the engine state.
- `BlockReplenishment`: `Init` and `PreStep` of the loop functions.
- `CameraPaths`: `SCameraPath`, camera-path configuration and the `DrawInWorld` latch and lookup.
- `Annotation`: the `Annotate` routines and the cached display lists.
- `BlockManipulation`: the mouse-wheel event filter and `EntityMoved`.

Simulator services become parameters:
- the position of an entity is a function `origin` from entity id to position;
- the random draws are a finite sequence of candidate positions;
- the collision test is a predicate on the spawn position;
- the blocks known to the space are a sequence of origin positions, in id order.

Distances are compared through their squares over `real`.

## Model

| member | source | states |
|---|---|---|
| ScenarioEngine.Action.AddEntityAction | src/loop_functions/di_srocs_loop_functions.h:76-84 | an add-entity action keeps the delay and entity configuration it was built with; `delay` is a `const` field, so it never changes afterwards |
| ScenarioEngine.Action.AddTimerAction | src/loop_functions/di_srocs_loop_functions.h:86-94 | an add-timer action keeps its delay and timer id |
| ScenarioEngine.Action.TerminateAction | src/loop_functions/di_srocs_loop_functions.h:96-101 | a terminate action keeps its delay |
| ScenarioEngine.AnyCondition | src/loop_functions/di_srocs_loop_functions.h:103-112 | a new any-condition is enabled, keeps the given `Once` flag and action list, and owns exactly the given children in order |
| ScenarioEngine.AllCondition | src/loop_functions/di_srocs_loop_functions.h:114-123 | a new all-condition is enabled, keeps the given `Once` flag and action list, and owns exactly the given children in order |
| ScenarioEngine.EntityCondition | src/loop_functions/di_srocs_loop_functions.h:125-143 | a new entity condition is enabled and stores the entity id, type, position and threshold unchanged |
| ScenarioEngine.EntityThresholdDefault | src/loop_functions/di_srocs_loop_functions.h:132-137 | when no threshold is given, the entity condition's threshold is 0 |
| ScenarioEngine.TimerCondition | src/loop_functions/di_srocs_loop_functions.h:145-157 | a new timer condition is enabled and stores its timer id and expected value unchanged |
| ScenarioEngine.SharedAction | src/loop_functions/di_srocs_loop_functions.h:49-62 | the same action object can sit in the action lists of two different conditions |
| ScenarioEngine.SharedActionPendingTwice | src/loop_functions/di_srocs_loop_functions.h:160 | because the multimap holds shared action references, one action can be pending at two different ticks at once, each holding one more occurrence of it |
| ScenarioEngine.Nodes | src/loop_functions/di_srocs_loop_functions.h:103-123 | the pre-order list of a condition tree starts with the condition itself |
| ScenarioEngine.DescendantsSmaller | src/loop_functions/di_srocs_loop_functions.h:103-123 | every proper descendant of a condition is strictly smaller than it, so the structure is a finite tree |
| ScenarioEngine.ForestSmaller | src/loop_functions/di_srocs_loop_functions.h:103-123 | every condition in the pre-order list of a child sequence is no larger than that list |
| ScenarioEngine.NotOwnDescendant | src/loop_functions/di_srocs_loop_functions.h:103-123 | a condition never occurs among its own descendants (the child lists are owned exclusively, with no cycles) |
| ScenarioEngine.Insert | src/loop_functions/di_srocs_loop_functions.h:160 | inserting into the multimap appends the action after the others due at that tick and leaves every other tick as it was |
| ScenarioEngine.Erase | src/loop_functions/di_srocs_loop_functions.h:160 | erasing a tick removes all actions due then and leaves every other tick as it was |
| ScenarioEngine.InsertTwiceKeepsBoth | src/loop_functions/di_srocs_loop_functions.h:160 | inserting the same action twice at one tick adds two occurrences |
| ScenarioEngine.InsertElsewhere | src/loop_functions/di_srocs_loop_functions.h:160 | an insertion at one tick changes the occurrences at no other tick |
| ScenarioEngine.Engine.constructor | src/loop_functions/di_srocs_loop_functions.h:159-166 | the engine starts with no conditions, no pending actions, no added entities, no timers, and the terminate flag false |
| ScenarioEngine.Engine.Schedule | src/loop_functions/di_srocs_loop_functions.h:160 | scheduling an action at a tick adds it to the multimap at that tick only, keeping the multimap well formed |
| ScenarioEngine.Engine.TakeDue | src/loop_functions/di_srocs_loop_functions.h:160 | taking a tick's actions returns all of them in insertion order, empties that tick and leaves the other ticks untouched |
| BlockReplenishment.LoopFunctions.constructor | src/loop_functions/di_srocs_loop_functions.cpp:11-22 | the arena ranges start as [-1, 1], both site corners are zero vectors, and there are no robots and no blocks |
| BlockReplenishment.ArenaRange | src/loop_functions/di_srocs_loop_functions.cpp:35-38 | the sampling range is centred on the arena centre and is 0.2 narrower than the arena, i.e. 0.1 inset on each side |
| BlockReplenishment.LoopFunctions.Init | src/loop_functions/di_srocs_loop_functions.cpp:27-48 | Init stores the site corners and target and insets both arena ranges. It appends the builderbots of the space in order. With no builderbot it stops there and reports `NoBuilderBots`, the exception of the first lookup. Otherwise it appends the blocks in order, and reports `NoBlocks`, the exception of the second lookup, when there are none |
| BlockReplenishment.BoundaryIsOutside | src/loop_functions/di_srocs_loop_functions.cpp:59-66 | a block on the boundary of the construction site is not inside it |
| BlockReplenishment.CountInside | src/loop_functions/di_srocs_loop_functions.cpp:57-68 | the number of blocks strictly inside the site is at most the number of blocks |
| BlockReplenishment.CountForaging | src/loop_functions/di_srocs_loop_functions.cpp:57-68 | the number of blocks in the foraging area is at most the number of blocks |
| BlockReplenishment.CountsPartition | src/loop_functions/di_srocs_loop_functions.cpp:57-68 | every block is counted in exactly one area: the two counts add up to the number of blocks |
| BlockReplenishment.CountBlocks | src/loop_functions/di_srocs_loop_functions.cpp:54-68 | the counting loop computes both counts, and they add up to the number of blocks |
| BlockReplenishment.CheckClearance | src/loop_functions/di_srocs_loop_functions.cpp:83-90 | the early-exit robot loop reports "too close" exactly when some robot's origin is closer than 0.25 to the candidate on the floor |
| BlockReplenishment.FirstAcceptableIsFirst | src/loop_functions/di_srocs_loop_functions.cpp:71-111 | the chosen candidate is acceptable and every earlier candidate was rejected, and nothing is chosen exactly when every candidate is rejected |
| BlockReplenishment.FindPlacement | src/loop_functions/di_srocs_loop_functions.cpp:71-111 | the retry loop with `continue` and `break` stops at the first acceptable candidate |
| BlockReplenishment.Replenishment | src/loop_functions/di_srocs_loop_functions.cpp:70-112 | a block is added only when the foraging count is below the target. It goes at a candidate that is outside the site, clear of robots and collision-free. When the count is below target, nothing is added only if every candidate was rejected |
| BlockReplenishment.DecimalRoundTrip | src/loop_functions/di_srocs_loop_functions.cpp:96 | the decimal text of a block number reads back as that number |
| BlockReplenishment.BlockIdInjective | src/loop_functions/di_srocs_loop_functions.cpp:96 | different block-list lengths give different ids "block" + N |
| BlockReplenishment.LoopFunctions.PreStep | src/loop_functions/di_srocs_loop_functions.cpp:53-117 | the candidates are drawn from the two arena ranges. The block list grows by exactly one block, named "block" + the old length, when replenishment places one, and is unchanged otherwise. A placed block lies inside the arena ranges and outside the construction site |
| CameraPaths.NewCameraPath | src/qtopengl_user_functions/di_qtopengl_user_functions.h:69-98 | a camera path stores its duration, positions, look-at points, up vectors and anchor exactly as given |
| CameraPaths.CameraPathDefaults | src/qtopengl_user_functions/di_qtopengl_user_functions.h:77-87 | the up vectors default to the zero vector and the anchor to none |
| CameraPaths.FocalLengthsIgnored | src/qtopengl_user_functions/di_qtopengl_user_functions.h:70-90 | the focal-length arguments do not influence the stored path |
| CameraPaths.LastGivenIsLatest | src/qtopengl_user_functions/di_qtopengl_user_functions.cpp:127-139 | a path without an `up` attribute gets the up vector of the latest earlier path that had one, or zero if there was none |
| CameraPaths.BuildPathsInOrder | src/qtopengl_user_functions/di_qtopengl_user_functions.cpp:129-150 | one camera path per `path` node, in document order, each with that node's duration, positions and look-at points |
| CameraPaths.UserFunctions.constructor | src/qtopengl_user_functions/di_qtopengl_user_functions.cpp:98-104 | no paths, camera index 0, and last clock `UInt32(-1)` |
| CameraPaths.UserFunctions.Init | src/qtopengl_user_functions/di_qtopengl_user_functions.cpp:114-152 | without `camera_paths` nothing changes. Otherwise the index is stored, and an index above 11 is rejected before any path is read. An accepted index appends the paths in order |
| CameraPaths.PrefixSumMonotone | src/qtopengl_user_functions/di_qtopengl_user_functions.cpp:167-171 | the sum of durations before a path never decreases along the list |
| CameraPaths.WrapAdd | src/qtopengl_user_functions/di_qtopengl_user_functions.cpp:169-170 | accumulating in 32-bit unsigned arithmetic gives the true sum modulo 2^32 |
| CameraPaths.SelectPathFrom | src/qtopengl_user_functions/di_qtopengl_user_functions.cpp:167-210 | with the 32-bit sums as written, the selected path is the first whose wrapped end is at or after the clock. Its elapsed time is clock minus the wrapped start, and no path is selected when all ends lie before the clock |
| CameraPaths.NoWrap | src/qtopengl_user_functions/di_qtopengl_user_functions.cpp:169-170 | when the total duration fits in 32 bits, the running sums equal the true prefix sums |
| CameraPaths.SelectPathByPrefixSums | src/qtopengl_user_functions/di_qtopengl_user_functions.cpp:167-175 | the selected path is the first i with prefix sum + duration >= clock, and the elapsed time lies in [0, duration]. No path is selected exactly when the list is empty or the total duration is below the clock |
| CameraPaths.ZeroDurationChosenOnlyAtStart | src/qtopengl_user_functions/di_qtopengl_user_functions.cpp:169-172 | a zero-length path is selected only when it is the first path and the clock is 0 (the one case where the time fraction is 0 divided by 0) |
| CameraPaths.FindCameraPath | src/qtopengl_user_functions/di_qtopengl_user_functions.cpp:167-212 | the loop with a running sum and `break` computes the selection defined by prefix sums |
| CameraPaths.UserFunctions.DrawInWorld | src/qtopengl_user_functions/di_qtopengl_user_functions.cpp:159-214 | the latch records the clock. Path selection runs only when the clock differs from the last recorded one, and its result is the prefix-sum selection |
| CameraPaths.DrawTwice | src/qtopengl_user_functions/di_qtopengl_user_functions.cpp:160-162 | a second draw at the same clock selects nothing |
| Annotation.Instruction | src/qtopengl_user_functions/di_qtopengl_user_functions.cpp:276-296 | a line is an arrow exactly when it has 4 tokens and the first is "arrow". It is a ring exactly when it has 4 tokens and the first is "ring". The other three tokens are the arguments |
| Annotation.Lines | src/qtopengl_user_functions/di_qtopengl_user_functions.cpp:273-275 | no line read from the draw buffer contains a line break |
| Annotation.LineEndIsFirst | src/qtopengl_user_functions/di_qtopengl_user_functions.cpp:273-275 | a line ends at the first line break of the buffer, or at its end when there is none |
| Annotation.LinesAppend | src/qtopengl_user_functions/di_qtopengl_user_functions.cpp:273-275 | reading a buffer that ends in a line break and then another buffer gives the lines of the first followed by those of the second |
| Annotation.LinesRoundTrip | src/qtopengl_user_functions/di_qtopengl_user_functions.cpp:273-275 | the lines read from the buffer, each followed by a line break, give back the buffer, plus a final line break if it had none |
| Annotation.DrawCommandsAppend | src/qtopengl_user_functions/di_qtopengl_user_functions.cpp:275-297 | lines are processed in order: the shapes for two blocks of lines are those of the first followed by those of the second |
| Annotation.DrawCommandsOne | src/qtopengl_user_functions/di_qtopengl_user_functions.cpp:275-297 | a single line draws its own arrow or ring, or nothing when it is neither |
| Annotation.DrawCommandsAtMostOnePerLine | src/qtopengl_user_functions/di_qtopengl_user_functions.cpp:275-297 | no line draws more than one shape |
| Annotation.TokenizeAll | src/qtopengl_user_functions/di_qtopengl_user_functions.cpp:275-277 | every line is tokenized separately, one token list per line |
| Annotation.Annotate | src/qtopengl_user_functions/di_qtopengl_user_functions.cpp:259-301 | the shapes are drawn in the anchor's frame, and there are never more shapes than lines in the draw buffer |
| Annotation.AnnotateAppend | src/qtopengl_user_functions/di_qtopengl_user_functions.cpp:273-297 | buffers are annotated line by line: the shapes of two buffers written one after the other are those of the first followed by those of the second |
| Annotation.AnnotateOneLine | src/qtopengl_user_functions/di_qtopengl_user_functions.cpp:275-297 | a buffer holding a single line draws exactly that line's arrow or ring, or nothing when the line is neither |
| Annotation.AnnotateRobot | src/qtopengl_user_functions/di_qtopengl_user_functions.h:48-61 | each robot overload draws its own debug entity in the frame of its origin anchor |
| Annotation.NewCachedShapes | src/qtopengl_user_functions/di_qtopengl_user_functions.h:134-140 | cylinder, cone and ring get three distinct consecutive ids, in that order, in the range reserved from the base list |
| BlockManipulation.FirstBlockNearIsFirst | src/qtopengl_user_functions/di_qtopengl_user_functions.cpp:48-52 | the block found is the first one within 0.005 of the target, and none is found exactly when no block is that close |
| BlockManipulation.WheelFilter | src/qtopengl_user_functions/di_qtopengl_user_functions.cpp:22-93 | the event is consumed only for a Ctrl+wheel event while a builderbot is selected. It is then consumed exactly when some block lies within 0.005 of one block side below the end effector, and the block turned is the first such block |
| BlockManipulation.EntityMoved | src/qtopengl_user_functions/di_qtopengl_user_functions.cpp:219-254 | non-builderbots move nothing. For a builderbot, a block moves exactly when one sat under the old end-effector position. Only the first such block moves, displaced by the robot's displacement lowered by 0.0005 |

## Left out

- `IsTrue`, `Execute`, `ParseCondition`, `ParseAction`, `PostStep`, `Reset` and `IsExperimentFinished` of the scenario engine: their bodies are not in the modelled files. The model keeps the data they work on and does not invent their rules.
- The `.cpp` of the loop functions is a block-foraging variant. Its members (`m_cSpace`, `m_vecRobots`, `m_vecBlocks`, the arena ranges, the site corners, the target count and the block template) are not declared in the header, which declares the scenario engine. The model follows each file: the engine state in `ScenarioEngine.Engine`, the `.cpp` fields in `BlockReplenishment.LoopFunctions`.
- `LogEntityToFile` and the output streams: file I/O.
- The block template configuration node: XML plumbing. The model records the id given to the new block.
- Physics and space operations (`MoveTo`, `IsCollidingWithSomething`, adding and removing entities, `GetEntitiesByType`): these are inputs and oracles. The temporary insertion and removal of a colliding block leaves no trace, so the model has none.
- BlockReplenishment.LoopFunctions.PreStep: the random draws are a finite sequence of candidates. When every candidate is rejected, the model adds nothing, whereas the source keeps drawing forever.
- BlockReplenishment.CountBlocks: the counters are unbounded, not `UInt32`. More than 2^32 blocks cannot occur.
- BlockReplenishment.LoopFunctions.constructor: `m_unTargetBlocksInForagingArea` is left uninitialised by the source's constructor. The model's placeholder for it carries no promise until `Init`.
- BlockReplenishment.LoopFunctions.PreStep: the new id "block" + N can clash with the id of a block given in the configuration. The space's reaction to such a clash is not modelled.
- CameraPaths.SelectPathByPrefixSums: this requires the total duration to fit in 32 bits. `SelectPathFrom` covers the sums as written, with wrap-around.
- The camera interpolation, normalisation, cross products and the settings they write: floating point. The model stops at the selected path and its elapsed time. A zero-length first path selected at clock 0 divides 0 by 0 in floating point; this is not modelled.
- The mouse-wheel handler installation in `Init` and the XML accessors: Qt and configuration plumbing. The configuration arrives as parsed records.
- BlockManipulation.WheelFilter: the rotation (angle from the wheel delta, quaternion products, the temporary lowering and the conditional 0.0005 drop) is floating-point geometry done through `MoveTo`. The model says which block is turned and that the event is consumed whether or not the moves succeed.
- `Tokenize` and the parsing of colours, vectors and radii: library code. Tokenization is a parameter and the arguments stay text.
- OpenGL drawing (`DrawArrow3`, `DrawRing3`, `MakeCylinder`, `MakeCone`, `MakeRing`, the GL state around `Annotate`) and the Euler-angle frame: rendering. `CCachedShapes` is modelled only through its list ids. A `glGenLists` failure, which returns 0, is not modelled.
- In the visualisation file the exception thrown by `GetEntitiesByType` when there are no blocks is caught (di_qtopengl_user_functions.cpp lines 45-91 and 235-253). It has the same effect as an empty block list, which is how `WheelFilter` and `EntityMoved` treat it. In the loop functions' `Init` the exception is not caught; the model returns it as an `InitResult` and does not model the simulator's reaction to it.
