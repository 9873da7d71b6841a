# ParkourGame simulation core in Dafny

This project models the simulation behind ParkourGame, a side-scrolling
endless runner. The player character stands at a fixed x and can only jump.
Trees, Fences and bouncing Pinballs scroll in from the right. The game is
over as soon as any obstacle touches the character.

The model has four modules:

- `Wrappers` (`wrappers.dfy`): `Option` and `Result`.
- `Objects` (`objects.dfy`): the entities of `objects.py`. `UserCharacter` is a class whose `ToNext` and `Jump` update its fields in place. They are specified by the pure functions `Fall` and `Impulse` on a `Motion` value. `WelcomeCharacter` wraps a `UserCharacter` and adds horizontal motion. The obstacles are one datatype, `Obstacle`, with the constructors `Tree`, `Fence` and `Pinball`. Their step is `Advance`, and their `collision_detect` tests are the predicates `TreeHits`, `FenceHits` and `BallHits`.
- `GameUnits` (`game_unit.dfy`): one lane, from `gameUnit.py`. The class `GameUnit` keeps the character in the field `player` (index 0 of the source's `objects` list) and the remaining objects in `obstacles`, in spawn order. It also keeps the spawner's counter `lastAdd`. `AddBarrier` is the spawner. `UnitLoop` is one tick: spawn, advance, prune, then test for collisions.
- `MainWindow` (`main_window.dfy`): the non-graphical rules of `mainWindow.py`. These are the difficulty gradient and the distance counter of `game_loop`, the lane set-up of `game_start` and `game_continue`, name validation and leaderboard insertion in `submit`, and the key-rebinding rule of `change_key`.

Positions and speeds are exact `real`s. Every random outcome is an input. For a lane tick this is a `Draws` value: the three `randint` results, the sprite indices and the uniform draw behind a Pinball's gravity. The drawn sprite index is constrained to its table, and the uniform draw to [0, 1).

The code (`objects.py:49-61`) moves the character first and applies gravity afterwards; the model follows the code.

## Model

| member | source | states |
|---|---|---|
| Objects.Lifted | objects.py:51 | the move by `y_speed` is skipped when it would take the character above `-height`, so a character at or below `-height` stays there |
| Objects.Fall | objects.py:47-67 | after a step the character is never below the ground line; a step that reaches or passes the ground lands with speed 0 and not jumping; a step that stays in the air keeps its moved-to y and jump flag; standing on the ground means speed 0 and not jumping; the `-height` ceiling is never crossed; gravity never takes the speed past `maxspeed`; in the air gravity adds between 0 and `gravity` to the speed |
| Objects.Impulse | objects.py:93-99 | a jump leaves y alone; it changes nothing while jumping without cheating; otherwise it sets jumping and an upward speed of `maxspeed` |
| Objects.ImpulseIdempotent | objects.py:93-99 | asking to jump twice in a row has the effect of one request |
| Objects.UserCharacter.constructor | objects.py:10-27 | the character starts at the given position with speed 0, not jumping, not cheating |
| Objects.UserCharacter.Ground | objects.py:49 | the ground line leaves the standing character's feet 5 above the canvas bottom, and on a canvas of non-negative height it lies below the `-height` ceiling |
| Objects.UserCharacter.ToNext | objects.py:47-67 | the new y, speed and jump flag are `Fall` of the old ones; x and every other field are untouched |
| Objects.UserCharacter.Jump | objects.py:93-99 | the new speed and jump flag are `Impulse` of the old ones; x and y are untouched |
| Objects.WelcomeCharacter.constructor | objects.py:140-144 | a welcome character is a fresh user character with horizontal speed 0 |
| Objects.WelcomeCharacter.ToNext | objects.py:146-149 | x moves by the horizontal speed and the vertical state advances exactly as for the user character |
| Objects.NewTree | objects.py:155-171 | a new Tree takes its size from the drawn row of the table, has its left edge on the right edge of the canvas and its foot on the bottom edge, and has speed 7 |
| Objects.NewFence | objects.py:252-266 | a new Fence takes its size from the drawn row of its table, is placed like a Tree and has speed 7 |
| Objects.NewPinball | objects.py:337-353 | a new Pinball has radius 20 and width 40, starts just past the right edge 400 above the bottom, has speed 7, vertical speed 0 and attenuation 1, and its gravity is `BaseGravity` of the uniform draw, in [0.1, 0.1 + 2/3) |
| Objects.Advance | objects.py:362-371 | every obstacle moves left by exactly its speed; Trees and Fences (objects.py:183-186, 278-281) change nothing else; a Pinball changes only x, y and vertical speed, never ends below its floor, picks up its gravity in free flight, bounces upward when it would pass the floor, and keeps its speed's magnitude on a bounce when the attenuation is 1 |
| Objects.Retained | gameUnit.py:76 | an obstacle is dropped only once it is wholly past the left edge, and one whose centre is still on the canvas is kept |
| Objects.Collides | gameUnit.py:88 | a Tree or Fence hit needs the character to meet the obstacle's box inset 3 from each side, so a character whose feet stay above the box's top clears it; for a Fence that box test is exact |
| Objects.TreeHits | objects.py:196-217 | a Tree hit implies that the character meets the Tree's box, inset 10 on each side; at or below the top edge the test is exactly that box test; a character straight above the trunk that reaches the top edge is hit |
| Objects.FenceHits | objects.py:291-299 | a Fence hit holds exactly when the character's rectangle meets the Fence's box, inset 3 on each side |
| Objects.BallHits | objects.py:386-412 | no Pinball hit while the ball is more than a radius above, below, left or right of the character's inset rectangle; always a hit when the ball's centre is inside that rectangle |
| Objects.BallHitsIsCircleRectTest | objects.py:386-412 | for a character at least 28 wide and 13 tall, the Pinball test is exactly the circle-rectangle test: a hit when the inset rectangle comes within one radius of the ball's centre |
| Objects.FenceExample | objects.py:291-299 | a character on the ground at x = 200 hits a small Fence centred at x = 200 and misses it at x = 500 |
| Objects.TreeForgivesCornerGraze | objects.py:196-217 | with the kind-0 Tree as the game spawns it (82 x 249 at the right edge of a 1600 x 900 lane), a character that only grazes its top corner meets the box but is not hit, because the rounded corner spares it |
| GameUnits.SpacingMet | gameUnit.py:97 | at any non-negative gradient 81 ticks always meet the spacing, and even at the capped gradient 20 spawns stay more than 20 ticks apart |
| GameUnits.Spawned | gameUnit.py:96-116 | nothing spawns unless the incremented counter exceeds `80 - 3 * gradient`; the priority is Fence, then Tree, then Pinball, each on a 0 draw; a Pinball needs gradient at least 0.5; every spawn starts just past the right edge with speed `7 + gradient`; Trees and Fences stand on the bottom; a Pinball's gravity is raised by `0.06 * gradient` |
| GameUnits.SpawnedMonotone | gameUnit.py:97-110 | with the same draws, a higher gradient never prevents a spawn and never changes whether it is a Fence or a Tree |
| GameUnits.Odds | gameUnit.py:98 | `randint(0, int(K - 2 * gradient))` has at least one outcome |
| GameUnits.OddsShrink | gameUnit.py:97-110 | the number of outcomes never grows with the gradient, so the chance of a 0 draw never falls |
| GameUnits.OddsOrdered | gameUnit.py:98-110 | with the bases 100 (Fence), 120 (Tree) and 200 (Pinball), at every gradient from 0 to 20 a Fence draw has 20 fewer outcomes than a Tree draw and 100 fewer than a Pinball draw, so a Fence draw is the likeliest to come up 0 and a Pinball draw the least likely |
| GameUnits.AdvanceAll | gameUnit.py:74-75 | every object advanced once, in the same order |
| GameUnits.AdvanceAllAppend | gameUnit.py:74-75 | advancing a concatenation advances each part |
| GameUnits.Survivors | gameUnit.py:72-81 | the kept objects are exactly those of the input with `x >= -width` |
| GameUnits.SurvivorsAppend | gameUnit.py:72-81 | pruning a concatenation prunes each part, so the relative order is kept |
| GameUnits.SurvivorsAllRetained | gameUnit.py:72-81 | when every object is still on screen, pruning keeps them all |
| GameUnits.TickKeepsOrder | gameUnit.py:70-81 | after a tick, the surviving old obstacles come first, in order, and the surviving new spawn comes after them |
| GameUnits.SpawnSurvivesFirstTick | gameUnit.py:76 | a freshly spawned obstacle is still on screen after its first step, for gradients up to 20 |
| GameUnits.AdvanceAndPrune | gameUnit.py:72-81 | the loop builds exactly `Survivors(AdvanceAll(objects))` |
| GameUnits.DetectCollision | gameUnit.py:87-90 | the scan reports true exactly when some obstacle collides with the character |
| GameUnits.GameUnit.constructor | gameUnit.py:32-42 | a lane starts with its character at (200, `cv_h - 60`), on the ground line and still, no obstacles, and a spacing counter of 100 |
| GameUnits.GameUnit.AddBarrier | gameUnit.py:92-116 | the obstacles gain at most the one spawn, appended after the old ones; the counter resets to 0 on a spawn and otherwise grows by 1 |
| GameUnits.GameUnit.UnitLoop | gameUnit.py:67-90 | the character stays at x = 200 and is never pruned, its vertical state steps by `Fall`, the obstacles become the survivors of the old ones plus the spawn after one step, the counter follows `AddBarrier`, the lane stays valid, and the result is true exactly when some obstacle collides with the character |
| GameUnits.GameUnit.Cheat | gameUnit.py:118-120 | the character's cheat flag is flipped, so two calls restore it |
| MainWindow.Gradient | mainWindow.py:1100 | the gradient never exceeds 20, is not negative for a non-negative distance, equals 20 exactly from distance 2000 on, and below that is a hundredth of the distance |
| MainWindow.GradientMonotone | mainWindow.py:1100 | a longer distance never gives a smaller gradient |
| MainWindow.DistanceStep | mainWindow.py:1108 | a tick adds at least 0.1 to the distance whenever the gradient is not negative |
| MainWindow.UnitCount | mainWindow.py:771-828 | a level plays with one or two lanes |
| MainWindow.LevelOf | mainWindow.py:890 | a saved game of one or two lanes resumes as the level with that many lanes |
| MainWindow.LevelRoundTrip | mainWindow.py:890 | reading the level off the number of lanes gives back the level that built them |
| MainWindow.LaneHeight | mainWindow.py:771-825 | the lanes of a level share the window height between them: two halves for hard, the whole for normal |
| MainWindow.TrimStart | mainWindow.py:1197 | the result is a suffix of the input, starts with no whitespace, and all it drops is whitespace |
| MainWindow.TrimEnd | mainWindow.py:1197 | the result is a prefix of the input, ends with no whitespace, and all it drops is whitespace |
| MainWindow.StripIsSlice | mainWindow.py:1197 | the stripped name is a contiguous piece of the entry, starting right after its leading whitespace |
| MainWindow.StripCutsBlank | mainWindow.py:1197 | what stripping cuts away on either side of that piece is whitespace |
| MainWindow.StripEnds | mainWindow.py:1197 | a stripped name has no whitespace at either end |
| MainWindow.StripEmptyIffBlank | mainWindow.py:1197-1198 | stripping leaves nothing exactly when the input is all whitespace |
| MainWindow.StripNoop | mainWindow.py:1197 | a name with no whitespace at its ends is its own strip |
| MainWindow.StripIdempotent | mainWindow.py:1197 | stripping twice is stripping once |
| MainWindow.ValidateName | mainWindow.py:1197-1207 | a name is accepted exactly when 1 to 18 characters remain after stripping, and then the stripped name is the one recorded; the error is "empty" exactly when nothing remains and "too long" exactly when more than 18 do |
| MainWindow.SlotUnique | mainWindow.py:1219-1228 | a run has at most one insertion slot in a board |
| MainWindow.InsertAtSlot | mainWindow.py:1219-1228 | inserting at the slot grows the board by exactly one, places the entry at the slot, keeps every other entry in order, and keeps a best-first board best-first |
| MainWindow.RankSlot | mainWindow.py:1219-1228 | the for/else loop finds the slot: after every entry at least as long (ties stay ahead) and before the first shorter one, or the end |
| MainWindow.EnterRun | mainWindow.py:1219-1228 | entering a run puts it at its slot, grows the board by one and keeps a best-first board best-first |
| MainWindow.DefaultsDistinct | mainWindow.py:19-24 | no two default actions share a key |
| MainWindow.RebindKeepsDistinct | mainWindow.py:507-540 | binding an action to a key that no action holds keeps the bindings pairwise distinct |
| MainWindow.KeyName | mainWindow.py:494-495 | the Tk key name is `<??>` exactly for the unknown key symbol `??` |
| MainWindow.GameWindow.constructor | mainWindow.py:65-73 | the key settings are the saved ones when there are any, else the defaults |
| MainWindow.GameWindow.GameStart | mainWindow.py:750-859 | the selected level gets one 1600 x 900 lane (normal) or two 1600 x 450 lanes (hard), each new and empty with its character on the ground, at rest, not jumping and not cheating, and the distance starts at 0 |
| MainWindow.GameWindow.GameContinue | mainWindow.py:866-905 | the saved lanes and distance come back, and the level is normal exactly when there is one lane |
| MainWindow.GameWindow.GameLoop | mainWindow.py:1076-1108 | lanes tick in order; a collision stops the loop at the colliding lane, leaves the distance unchanged and leaves the later lanes' obstacles, counters and character motion as they were; otherwise no lane collides and the distance grows by exactly `0.1 + 0.01 * gradient`, so it strictly increases; of the characters a tick changes only y, vertical speed and jump flag, so no cheat flag changes |
| MainWindow.GameWindow.TickLane | mainWindow.py:1101-1102 | ticking one lane reports its collision, changes only that lane and its character's vertical motion, and leaves every other lane's state and collision status as they were |
| MainWindow.GameWindow.Cheat | mainWindow.py:1071-1074 | every lane's cheat flag is flipped and nothing else changes: obstacles, counters and character motion are kept, so two calls restore the window |
| MainWindow.GameWindow.Submit | mainWindow.py:1195-1228 | a rejected name changes nothing and reports why; an accepted one is entered in this level's board at its slot, the other board is the stored one, the reported rank is the entry's 1-based position, and a best-first board stays best-first |
| MainWindow.GameWindow.ChangeKey | mainWindow.py:492-540 | the unknown key fails and a key already bound to any action conflicts, both leaving the settings alone; otherwise only the action's own binding changes; distinct bindings stay distinct |
| MainWindow.GameWindow.ResetKeys | mainWindow.py:543-547 | the bindings return to the defaults, which are distinct |

## Left out

- Drawing: every `draw`, `initialize_images`, `re_init` and `clear`, plus `draw_background`, `enable_key_bind`, the menus, the pause screen, `boss_key`, the leaderboard display and the hover buttons. These only call the GUI toolkit.
- The running-sprite index and `frame_count` of `UserCharacter.draw`, and the Pinball's colour. They are cosmetic.
- Persistence: the pickled save, rank and key-setting files, and `__getstate__`/`__setstate__`. The saved key settings come into `GameWindow.constructor` as an optional value, the stored leaderboards come into `Submit` as `stored`, and the saved lanes and distance come into `GameContinue` as arguments. The time stamp of a leaderboard entry is the argument `now`.
- Frame timing: the clock loop, `after`/`after_cancel`, and the fps measurement that changes the frame interval. These depend on wall-clock time.
- The welcome-screen animation driver `run_over`. It is screen choreography around `WelcomeCharacter.ToNext`.
- Randomness: sprite choice, colour, gravity and the `randint` draws are inputs. `GameUnits.Odds` counts the outcomes of a draw and `GameUnits.OddsOrdered` compares the three draws, but the model does not constrain the values in `Draws` to those ranges or model their distribution.
- Floating point: coordinates are exact reals. The source's `y == ground` test becomes exact equality, and `int(...)` of a non-negative value becomes the real number's `.Floor`.
- Obstacle identity: obstacles are values in a sequence, so the model does not capture one obstacle object being updated in place or shared between lists. The character is a class and is updated in place.
- Level selection: the source sets the level when a menu button is pressed and reads it in `game_start`. The model passes it to `GameStart`. Before the first game the window's `level` holds `Normal` as a placeholder.
- Objects.TreeHits: above the top edge only a necessary condition and one sufficient condition are stated, not an exact geometric characterisation of the rounded corners.
- Objects.BallHitsIsCircleRectTest: stated only for a character at least 28 wide and 13 tall. A smaller character has an empty inset rectangle.
- GameUnits.SpawnSurvivesFirstTick: stated only for a non-negative canvas width and a gradient of at most 20.
- MainWindow.GameWindow.GameLoop: does not restate each ticked lane's new obstacles and character state. `GameUnits.GameUnit.UnitLoop` states them for a single tick.
- MainWindow.GameWindow.TickLane: states the lane's collision result but not its new state. `GameUnits.GameUnit.UnitLoop` states that.
