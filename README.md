# Alien Invasion: a verified model of the frame loop

This project models the per-frame game state of a small pygame shooter,
"Alien Invasion". The player's ship sits at the bottom of the screen. Two
arrow keys set movement flags. The space bar fires a bullet, up to a cap
on live bullets. Q, or closing the window, ends the process. Each frame of
the main loop does four things in a fixed order:

1. it handles the pending input events;
2. it moves the ship;
3. it updates every bullet and drops those whose bottom edge has reached
   the top of the screen;
4. it draws.

The model has one Dafny module per source file, plus `Geometry`:

- `Geometry` holds the integer screen rectangles. Their edges and anchor
  points are derived from x, y, width and height. It also holds the
  conversion of a float coordinate into a rectangle coordinate.
- `GameSettings` is the configuration record. It is a class. Read-only
  properties are constant fields. The five properties with setters are
  mutable fields, each with a setter method.
- `MyShip` is the ship. It is a class with the float position, the integer
  rectangle and the two flags. Its methods change those fields as the
  source does. Each method's postcondition equates the ship's new value
  with a pure function of the old value (`Initial`, `MovedRight`,
  `MovedLeft`, `Updated`). The lemmas are about those functions.
- `MyBullets` is a bullet. It is built the same way, with the functions
  `Spawned`, `Stepped` and `SteppedN`.
- `MyAlienInvasion` is the game object. The pool of live bullets is a
  sequence of bullet objects. It is updated in place:
  - firing appends a new bullet;
  - the sweep updates every bullet object, then removes off-screen ones
    from the pool while iterating over a snapshot of it.

  `Valid()` keeps the pool free of repetitions, within the cap, and
  sharing the game's settings, whose fleet direction stays 1 or -1. `State()` abstracts the game to a
  `GameView` value. The functions `HandleEvents`, `AdvanceFrame` and `Run`
  give the meaning of the event loop, of one frame and of a sequence of
  frames. The lemmas about them prove that the invariant holds: at most
  `cap` bullets, the ship within its envelope, and every rectangle
  consistent with its float position.

Decisions about what stands for what:

- Float positions are `real`.
- Copying a float into an integer rectangle is truncation toward zero
  (`Geometry.Truncate`).
- Rectangle midpoints use half the width rounded toward zero (`Geometry.Half`).
- Ending the process is a `terminated` flag. The rest of that frame's
  events, and the rest of the frame, are skipped. After it nothing changes.
- The infinite main loop is `RunGame`, run over a finite sequence of
  frames, each given as the events polled in it.
- Drawing is `UpdateTheScreen`. It returns the list of drawing operations a
  frame performs and modifies nothing.
- The ship's movement is refused at an edge rather than clamped. The
  proved envelope is therefore: the left edge never goes below 0, and the
  right edge ends less than one step past the screen's right edge. Within
  that step the ship may overshoot by up to one pixel at the default speed
  of 1.5. `RightEdgeOvershootReachable` shows two frames that reach this
  overshoot.

The game file imports its ship, bullet and settings classes from an
earlier chapter's package. The model follows the consistent set used
here instead:
- the ship of `my_alien_invasion/my_ship.py`;
- the bullet of `chapter_12/my_game/my_bullets.py`;
- the settings of `my_game/settings.py`.

The bullet reads the ship's rectangle and the bullet settings, which only
those files define.

Two facts about the code shape the model:
- The off-screen test is written inline in the game's sweep. No bullet
  method performs it.
- The frame loop of `my_game/my_alien_invasion.py` neither creates, moves
  nor draws aliens.

## Model

| member | source | states |
|---|---|---|
| Geometry.Half | my_alien_invasion/my_ship.py:44 | half of an integer rounded toward zero: for n >= 0, 2h <= n < 2h + 2; symmetrically for negative n |
| Geometry.Truncate | my_alien_invasion/my_ship.py:123 | the integer a float becomes in a rectangle lies within one unit of it, on the side of zero |
| Geometry.TruncateOfInteger | my_alien_invasion/my_ship.py:46 | a float made from an integer truncates back to that integer, so the float position starts in step with the rectangle |
| Geometry.TruncateMonotone | my_alien_invasion/my_ship.py:123 | truncation preserves order, so a larger float position never gives a smaller rectangle x |
| Geometry.Rect.WithMidTop | chapter_12/my_game/my_bullets.py:32 | assigning midtop moves the rectangle so that its midtop is the given point and keeps its size |
| Geometry.Rect.WithMidBottom | my_alien_invasion/my_ship.py:44 | assigning midbottom moves the rectangle so that its midbottom is the given point and keeps its size |
| GameSettings.Settings.constructor | my_game/settings.py:10-30 | the defaults: screen 1200 x 800, screen dimensions (1200, 800), ship speed 1.5, bullet speed 1.0, bullet 4 x 16, cap 3, alien speed 1.0, fleet drop 16, direction 1; background and bullet colours are three equal channels, 0 and 250 |
| GameSettings.Settings.SetScreenWidth | my_game/settings.py:37-39 | sets the screen width and nothing else; the screen dimensions taken at construction stay |
| GameSettings.Settings.SetScreenHeight | my_game/settings.py:46-48 | sets the screen height and nothing else |
| GameSettings.Settings.SetBulletWidth | my_game/settings.py:80-82 | sets the bullet width and nothing else |
| GameSettings.Settings.SetBulletHeight | my_game/settings.py:89-91 | sets the bullet height and nothing else |
| GameSettings.Settings.SetFleetHorizontalDirection | my_game/settings.py:118-133 | sets the direction and nothing else; the documented range 1 or -1 is its precondition and holds afterwards |
| MyShip.Initial | my_alien_invasion/my_ship.py:40-49 | a new ship has the image's size, its midbottom on the screen's midbottom, the float position equal to the rectangle's x, and both flags false |
| MyShip.UpdateMovement | my_alien_invasion/my_ship.py:113-123 | both guards read the rectangle as it was before the update; the float position moves by the speed once per passing guard, right then left; only the rectangle's x is rewritten, once, from the new float position; y, size and flags are kept |
| MyShip.MovesRightExactlyWhen | my_alien_invasion/my_ship.py:99-111 | for a positive speed, the float position moves right by exactly the speed if and only if the right flag is set, the right edge is left of the screen's, and the left move does not apply; symmetrically for left |
| MyShip.BothDirectionsCancel | my_alien_invasion/my_ship.py:121-122 | with both flags set and both guards passing, the net change is zero |
| MyShip.NeverPastLeftEdge | my_alien_invasion/my_ship.py:110-111 | once the left edge is at or left of 0, an update never moves the ship further left |
| MyShip.NeverPastRightEdge | my_alien_invasion/my_ship.py:99-100 | once the right edge is at or past the screen's, an update never moves the ship further right |
| MyShip.InitialInBounds | my_alien_invasion/my_ship.py:44-46 | a ship no wider than the screen starts inside the envelope |
| MyShip.UpdatePreservesBounds | my_alien_invasion/my_ship.py:99-123 | an update keeps the ship inside the envelope |
| MyShip.FlagsPreserveBounds | my_alien_invasion/my_ship.py:65-78 | setting or clearing the flags keeps the ship inside the envelope |
| MyAlienInvasion.RightEdgeOvershootReachable | my_alien_invasion/my_ship.py:99-100 | the right-edge allowance is reached: from the initial game on a 10-wide screen with a 6-wide ship at speed 1.5, a right press and one more frame leave the ship inside the envelope with its right edge at 11 |
| MyShip.InBoundsEdges | my_alien_invasion/my_ship.py:99-111 | in the envelope, with a step under two pixels, the left edge is at least 0 and the right edge ends less than one step past the screen's |
| MyShip.Ship.constructor | my_alien_invasion/my_ship.py:13-49 | the ship object's state is `Initial` of the screen and the image size |
| MyShip.Ship.SetMovingRight | my_alien_invasion/my_ship.py:65-67 | sets the right flag and nothing else |
| MyShip.Ship.SetMovingLeft | my_alien_invasion/my_ship.py:76-78 | sets the left flag and nothing else |
| MyShip.Ship.MoveShipRight | my_alien_invasion/my_ship.py:91-100 | adds the speed to the float position exactly when the right flag is set and the right edge is left of the screen's; changes nothing else |
| MyShip.Ship.MoveShipLeft | my_alien_invasion/my_ship.py:102-111 | subtracts the speed exactly when the left flag is set and the left edge is right of 0; changes nothing else |
| MyShip.Ship.Update | my_alien_invasion/my_ship.py:113-123 | the ship's new state is `Updated` of its old state |
| MyBullets.RectangleAtOrigin | chapter_12/my_game/my_bullets.py:55-58 | a rectangle whose top-left corner is (0, 0) and whose right and bottom edges are the given width and height |
| MyBullets.Spawned | chapter_12/my_game/my_bullets.py:28-33 | a new bullet is bullet-sized, has its midtop on the ship's midtop, the float position equal to the rectangle's y, and the settings' colour |
| MyBullets.StepMovesByExactlySpeed | chapter_12/my_game/my_bullets.py:68-69 | one update lowers the float position by exactly the speed, copies it into the rectangle's y, and keeps x, size and colour |
| MyBullets.SteppedNClosedForm | chapter_12/my_game/my_bullets.py:68-69 | after n updates the float position is y0 - n * speed, for n > 0 the rectangle's y is that value truncated, and x, size and colour are unchanged |
| MyBullets.OffScreenAfterN | chapter_12/my_game/my_bullets.py:28-33 | a spawned bullet updated n > 0 times is off the screen exactly when the truncated y0 - n * speed plus its height is at most 0 |
| MyBullets.Bullet.constructor | chapter_12/my_game/my_bullets.py:15-33 | the bullet object's state is `Spawned` above the ship's rectangle with the current settings |
| MyBullets.Bullet.GetBulletRectangleAtOrigin | chapter_12/my_game/my_bullets.py:44-58 | a rectangle at (0, 0) with the settings' bullet width and height; reads only the settings, so the bullet is not affected |
| MyBullets.Bullet.Update | chapter_12/my_game/my_bullets.py:60-69 | the bullet's new state is `Stepped` of its old state |
| MyAlienInvasion.FireAddsExactlyOne | my_game/my_alien_invasion.py:127-129 | below the cap, firing appends exactly one bullet, bullet-sized with its midtop on the ship's, and keeps the others; at or above the cap nothing changes |
| MyAlienInvasion.SingleShot | my_game/my_alien_invasion.py:96-97 | one press of the fire key with room in the pool appends exactly one bullet, spawned above the ship, and changes nothing else |
| MyAlienInvasion.FourShotsWithCapThree | my_game/my_alien_invasion.py:127-129 | four presses of the fire key in one frame with the cap 3 and an empty pool leave exactly three bullets |
| MyAlienInvasion.KeyDownEffects | my_game/my_alien_invasion.py:90-97 | pressing an arrow key sets only its own flag, Q ends the process and changes nothing else, Space fires, any other key changes nothing |
| MyAlienInvasion.KeyUpEffects | my_game/my_alien_invasion.py:114-117 | releasing an arrow key clears only its own flag; releasing any other key changes nothing |
| MyAlienInvasion.ReleaseUndoesPress | my_game/my_alien_invasion.py:90-117 | releasing an arrow key restores the state before pressing it, for a ship that was not already moving that way |
| MyAlienInvasion.QuitDiscardsTheRest | my_game/my_alien_invasion.py:65-69 | a quit event or the Q key ends the process at once: the rest of the frame's events are not handled, and, for either, the ship and the bullets do not move in that frame |
| MyAlienInvasion.RunAfterTermination | my_game/my_alien_invasion.py:51-55 | once the process has ended, any further frames change nothing |
| MyAlienInvasion.KeepOnScreen | my_game/my_alien_invasion.py:133-135 | as values: a bullet appears in the filter's result if and only if it appears in the pool and its bottom edge is below the top of the screen; the pool never grows |
| MyAlienInvasion.KeepOnScreenCounts | my_game/my_alien_invasion.py:133-135 | each bullet value occurs in the result as often as in the pool when its bottom edge is below the top of the screen, and not at all otherwise, so equal bullets survive or go together |
| MyAlienInvasion.KeepOnScreenAll | my_game/my_alien_invasion.py:133-135 | when no bullet is off the screen, the filter returns the pool unchanged, order and repetitions included |
| MyAlienInvasion.SweepKeepsExactlyOnScreen | my_game/my_alien_invasion.py:131-135 | every bullet is updated before the filter; as values, an updated bullet is among the survivors if and only if its updated bottom edge is below the top of the screen; every survivor is an old bullet updated once; the pool never grows |
| MyAlienInvasion.SweepCounts | my_game/my_alien_invasion.py:131-135 | each updated bullet value survives the sweep with its full multiplicity when still on the screen, and not at all otherwise |
| MyAlienInvasion.SweepSingle | my_game/my_alien_invasion.py:131-135 | a lone bullet still on the screen after its update is kept, updated |
| MyAlienInvasion.FrameBullets | my_game/my_alien_invasion.py:51-55 | in a frame that does not end the process, the bullets at its end are the sweep of the bullets left by its events; the ship's update does not affect them |
| MyAlienInvasion.PressMovesInTheSameFrame | my_game/my_alien_invasion.py:51-55 | events come before the ship's update: a right-arrow press moves a ship that is clear of the right edge and not moving left within the same frame |
| MyAlienInvasion.FiredBulletMovesInTheSameFrame | my_game/my_alien_invasion.py:51-55 | events come before the sweep: a bullet fired into an empty pool has moved up by one step by the end of the same frame, and is kept when that step leaves it on the screen |
| MyAlienInvasion.InitialGameInvariant | my_game/my_alien_invasion.py:19-31 | the game as constructed, with an empty pool, satisfies the invariant |
| MyAlienInvasion.HandleEventPreservesInvariant | my_game/my_alien_invasion.py:65-71 | handling one event keeps the invariant |
| MyAlienInvasion.HandleEventsPreservesInvariant | my_game/my_alien_invasion.py:65-71 | handling a frame's events keeps the invariant |
| MyAlienInvasion.SweepPreservesConsistency | my_game/my_alien_invasion.py:131-135 | after the sweep every bullet's rectangle y is its float position truncated |
| MyAlienInvasion.FramePreservesInvariant | my_game/my_alien_invasion.py:51-55 | one frame keeps the invariant |
| MyAlienInvasion.RunPreservesInvariant | my_game/my_alien_invasion.py:51-55 | any number of frames keeps the invariant |
| MyAlienInvasion.PoolAndShipStayBounded | my_game/my_alien_invasion.py:51-55 | from a newly constructed game, whatever the input, the pool never holds more than the cap, and with a step under two pixels the ship never leaves the screen on the left and ends less than one step past its right edge |
| MyAlienInvasion.KeepObjectsShrinks | my_game/my_alien_invasion.py:133-135 | removal adds no bullet object: every kept object was in the pool, and the result is no longer than the pool |
| MyAlienInvasion.KeepObjectsExactlyOnScreen | my_game/my_alien_invasion.py:133-135 | object by object: a bullet of the pool stays if and only if its rectangle's bottom edge is below the top of the screen |
| MyAlienInvasion.ViewsOfKept | my_game/my_alien_invasion.py:133-135 | removing off-screen bullet objects from the pool gives, as values, exactly the kept bullets of the filter |
| MyAlienInvasion.AlienInvasion.constructor | my_game/my_alien_invasion.py:19-31 | the settings are the defaults, the alien speed, fleet drop and fleet direction included, with screen width and height overwritten by the display's; the ship is built on the display's rectangle; the pool is empty; the game state is `InitialGame` |
| MyAlienInvasion.AlienInvasion.FireBullet | my_game/my_alien_invasion.py:127-129 | the game's new state is `Fire` of its old state; the pool stays within the cap and only fresh bullets join it |
| MyAlienInvasion.AlienInvasion.CheckKeyDownEvents | my_game/my_alien_invasion.py:90-97 | the game's new state is `KeyPressed` of its old state and the key |
| MyAlienInvasion.AlienInvasion.CheckKeyUpEvents | my_game/my_alien_invasion.py:114-117 | the game's new state is `KeyReleased` of its old state and the key |
| MyAlienInvasion.AlienInvasion.CheckEvents | my_game/my_alien_invasion.py:65-71 | handling the polled events in order, stopping at one that ends the process, gives `HandleEvents` of the old state |
| MyAlienInvasion.AlienInvasion.UpdateShip | my_game/my_alien_invasion.py:53 | the ship's update within a frame: the game's new state is the old one with the ship `Updated`; the bullets and the flag are untouched |
| MyAlienInvasion.AlienInvasion.UpdateEveryBullet | my_game/my_alien_invasion.py:132 | every bullet object of the pool is updated once, in place |
| MyAlienInvasion.AlienInvasion.RemoveOffScreenBullets | my_game/my_alien_invasion.py:133-135 | removing, for each bullet of a snapshot, those with bottom edge at most 0, that is at or above the top of the screen, leaves `KeepObjects` of the snapshot, in order; each bullet object of the old pool stays if and only if its bottom edge is below the top of the screen; no object joins, and the game stays valid |
| MyAlienInvasion.AlienInvasion.UpdateBulletsOnScreen | my_game/my_alien_invasion.py:131-135 | the pool's values become `Sweep` of the old ones, the ship is untouched, no new bullet appears, each old bullet object stays if and only if its updated bottom edge is below the top of the screen, and the pool stays valid |
| MyAlienInvasion.AlienInvasion.UpdateTheScreen | my_game/my_alien_invasion.py:145-149 | the frame is drawn as: fill with the background colour, draw the ship, then every bullet in pool order; nothing is modified |
| MyAlienInvasion.AlienInvasion.Step | my_game/my_alien_invasion.py:51-55 | one pass of the main loop takes the game to `AdvanceFrame` of its old state: events, then ship, then bullets, then drawing |
| MyAlienInvasion.AlienInvasion.RunGame | my_game/my_alien_invasion.py:51-55 | running a sequence of frames takes the game to `Run` of its old state, and the game stays valid |

## Left out

- Drawing, the display, and all pygame plumbing are not modelled:
  `pygame.init`, opening the full-screen display, the caption, `fill`,
  `blit`, `draw.rect` and `flip`. Drawing is a returned list of operations.
- Loading the ship image is not modelled. The image's width and height are
  parameters of the constructors. The display's size is one too.
- The actual process exit is not modelled. It is the `terminated` flag.
- Event polling is not modelled. Each frame's events are a given sequence.
  Only quit, key-down and key-up events with the four named keys are
  distinguished; everything else is one "other" case.
- The infinite loop is not modelled as such. `RunGame` runs a finite
  sequence of frames, and any prefix of an endless run is such a sequence.
- IEEE floating point is not modelled. Speeds and positions are exact reals.
- pygame's own float-to-integer rule for rectangle coordinates is not
  modelled. It is truncation toward zero. The proved left-edge bound of
  `MyShip.InBoundsEdges` and `MyAlienInvasion.PoolAndShipStayBounded`
  depends on this choice: under flooring, a ship at x = 1.0 moving left by
  1.5 would get x = -1.
- The pool is a sequence of bullet objects without repetitions, not a
  pygame sprite group. Its iteration order is taken to be insertion order.
- Getter properties are read as fields. They compute nothing.
- The alien sprites of `my_game/my_alien.py` and `my_alien_invasion/my_alien.py`
  are not part of this model. These files only set an initial offset or
  are stubs. The game loop modelled here neither creates nor moves aliens.
  Fleet layout, fleet motion and the reversal of direction do not appear
  in the code.
- The earlier snapshots `chapter_12/my_game/my_ship.py`,
  `chapter_12/my_game/my_alien_invasion.py` and
  `chapter_12/my_game/settings.py` are not part of this model.
- MyShip.InBoundsEdges: the proved envelope lets the right edge end less
  than one step past the screen's right edge. This is not "always within
  [0, width - ship width]", because the source refuses a move at the edge
  rather than clamping it.
- MyAlienInvasion.PoolAndShipStayBounded: the ship bound has the same
  one-step allowance on the right, and it requires a ship speed under two
  pixels per frame.
- GameSettings.Settings.SetFleetHorizontalDirection: the source stores any
  value. The documented range 1 or -1 is stated as a precondition instead.
