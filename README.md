# ShooterNeuronField core, modelled in Dafny

A two-player pygame arena. The application (`main.py`) owns an ordered list
of game objects: a world backdrop, then two characters, then any number of
balls. Every object's id is supposed to be its index in that list.

- A character (`game.py`) walks only inside two corridors, left and right of
  a forbidden central strip.
- A character turns, and opens or narrows its vision field inside [0, 40].
- A character fires balls, no more than once per cooldown period.
- A ball flies in a straight line. It removes itself from the list on the
  frame its next position would leave the window.
- A neuron (`controller.py`) keeps a weighted sum of its inputs. It is not
  wired to the game.

The project has five modules:

- `Settings` (settings.dfy): the configuration constants as one record.
- `Geometry` (geometry.dfy): points, truncation toward zero, the four zone
  predicates, and what they mean in integer terms.
- `Rules` (rules.dfy): every state transition of the game as a function of
  values. This covers the field clamps, the forward move, the ball step and
  the whole update pass over the list.
- `Game` (game.dfy): the classes `GameObject` and `App`. Their methods
  update fields and the shared object list in place, and are proved against
  the `Rules` functions.
- `Controller` (controller.dfy): the `Neuron` class, its accumulation loop
  and the weighted sum it computes.

The update pass is the subtle part. Python's `for o in self.objects`
advances an index over the live list. A ball that leaves the window pops
itself during its own `on_update`, so the object behind it slides into the
freed slot. The index then moves past that slot, and the object is not
visited on this frame. `Rules.Pass` is this behaviour as a function.
`Rules.Visits` and `Rules.Outcome` describe it element by element.
`Game.App.OnUpdate` runs the real loop over the object list and is proved
to produce `Rules.Pass` of what it started from.

Three behaviours of the code that are easy to misread. The model keeps
each one as written:

- The docstring of `shoot` says `v >= 1` (game.py:141), but the code
  returns on `v <= 1` (game.py:144), so the default argument 1 never fires.
  `Game.GameObject.Shoot` keeps the `v <= 1` guard.
- Iterating the live list (main.py:88) skips the object behind a ball that
  removes itself on this frame. `Rules.AdjacentExitsSkipSecond` shows this
  on two balls.
- The clamps of `reduce_field` and `enlarge_field` are one-sided
  (game.py:105, 117), so a negative amount leaves [0, 40].
  `Rules.FieldStaysInRange` keeps [0, 40] for non-negative amounts, and
  `Rules.NegativeReduceLeavesRange` gives the counterexample.

Inputs from outside the program become parameters:

- The pygame clock of a character becomes the field `lastTick` and a
  parameter `now`. `now` is the reading of a millisecond clock that starts
  with the character.
- `cos(radians(a))` and `sin(radians(a))` become a parameter
  `heading: real -> Vec`, applied to the character's angle.
- The keyboard state becomes a `Keys` value, and an event becomes an
  `Event` value.
- The configuration constants become a `Config` value.
- A game object's back-reference `self.app` becomes an `App` parameter of
  the methods that use it.

## Model

| member | source | states |
|---|---|---|
| Geometry.Trunc | game.py:160 | `int()` of a float truncates toward zero: for a non-negative value the result is the largest integer not above it; for a negative value it is the smallest integer not below it |
| Geometry.InAllowedRecW | game.py:46-52 | `in_allowed_rec_w`: x lies strictly inside (0, 2W/5) or strictly inside (3W/5, W), the bounds compared as reals |
| Geometry.InAllowedRecH | game.py:55-61 | `in_allowed_rec_h`: 0 < y < H |
| Geometry.InAllowedRec | game.py:64-70 | `in_allowed_rec`: both coordinates are allowed |
| Geometry.InWindow | game.py:73-79 | `in_window`: 0 < x < W and 0 < y < H |
| Geometry.AllowedWIntegerForm | game.py:46-52 | x is in a corridor iff 0 < 5x < 2W or 3W < 5x < 5W; the four bounds 0, 2W/5, 3W/5 and W are all excluded |
| Geometry.CentralStripForbidden | game.py:46-52 | every x with 2W <= 5x <= 3W, bounds included, is refused to a character |
| Geometry.AllowedWMirror | game.py:46-52 | the two corridors are mirror images: x is allowed iff W - x is |
| Geometry.AllowedInWindow | game.py:64-79 | every point allowed to a character is inside the window |
| Geometry.WindowOutsideAllowed | game.py:55-79 | a window point refused to a character has its x in the central strip |
| Geometry.StartPositionsAllowed | main.py:21-25 | for a window at least 6 wide and 2 high, both start positions (int(w/4), int(h/2)) and (int(3w/4), int(h/2)) are allowed |
| Geometry.StartPositionRejectedAtWidthFive | main.py:25 | for a 5-pixel-wide window the second start x, int(15/4) = 3, is on the corridor bound 3W/5 and is refused |
| Rules.ReducedField | game.py:104-108 | `reduce_field`'s new field: f - v when that is not negative, else 0 |
| Rules.EnlargedField | game.py:116-120 | `enlarge_field`'s new field: f + v when that is at most 40, else 40 |
| Rules.ReducedFieldIsMax | game.py:98-108 | for a non-negative amount, reducing gives max(0, f - v) and never raises a non-negative field |
| Rules.EnlargedFieldIsMin | game.py:110-120 | for a non-negative amount, enlarging gives min(40, f + v) and never lowers a field at most 40 |
| Rules.FieldStaysInRange | game.py:98-120 | any sequence of reduce and enlarge commands with non-negative amounts keeps a field that starts in [0, 40] inside [0, 40] |
| Rules.NegativeReduceLeavesRange | game.py:104-108 | a negative amount escapes the range: reducing 30 by -20 gives 50, and enlarging 10 by -20 gives -10 |
| Rules.StepLength | game.py:157-158 | the step of `forward` is at most the move step and at most `v`, and is one of the two |
| Rules.Candidate | game.py:159-160 | the position `forward` tries: each coordinate plus step times the heading component, truncated by `int()` |
| Rules.Forwarded | game.py:151-162 | the position after `forward(v)`: the candidate for the capped step when it is allowed, else the old position |
| Rules.ForwardAllOrNothing | game.py:159-162 | a forward move either reaches the truncated candidate position or stays put; it reaches the candidate exactly when the candidate is allowed (or equals the old position) |
| Rules.ForwardKeepsAllowed | game.py:151-162 | a character in the allowed zone is still in it after any forward move |
| Rules.BallNext | game.py:199 | the ball's next position: direction times V_BALL plus the position, per coordinate, truncated by `int()` |
| Rules.Exits | game.py:199-203 | an object pops itself on its update exactly when it is a ball whose next position is outside the window |
| Rules.Stepped | game.py:194-201 | a ball that stays moves to its next position; the world and the characters are unchanged (game.py:26-31, 164-169) |
| Rules.Pass | main.py:83-89 | the list after one pass of the list iterator: an object that stays is stepped; an object that pops itself is dropped, and the one that slides into its slot is kept unvisited |
| Rules.Outcome | main.py:88-89 | the list after a pass, element by element, given which objects were visited |
| Rules.BallAlongRow | game.py:194-203 | a ball moving right along a row advances by the whole part of its speed, and stays in play exactly when the new x is below the window width |
| Rules.PassAdvance | main.py:83-89 | visiting the object at index `idx` and advancing the index preserves the outcome of the pass, whether the object steps in place or pops itself |
| Rules.Visits | main.py:88-89 | the visit mask has one entry per object |
| Rules.PassIsOutcome | main.py:83-89 | the pass equals its element-wise outcome: visited objects that exit are dropped, visited ones that stay are stepped, skipped ones are kept unchanged |
| Rules.VisitsSkipRule | main.py:88-89 | the first object is always visited; any later object is skipped exactly when the object before it was visited and removed itself |
| Rules.PassKeepsNonBalls | game.py:164-169 | a pass neither removes nor changes the world or the characters: their sub-list is the same before and after |
| Rules.PassOfBalls | game.py:194-203 | a pass never lengthens the list, and a pass over balls leaves only balls |
| Rules.PassKeepsLayout | main.py:22-26 | a pass keeps the layout world, two characters, then balls, and leaves the first three objects untouched |
| Rules.AdjacentExitsSkipSecond | main.py:88-89 | of two balls that both leave the window on one frame, only the first is removed; the second is skipped and stays where it was |
| Game.GameObject.World | game.py:38-39 | the world sits at the origin with id 0 |
| Game.GameObject.Character | game.py:87-96 | a new character faces angle 0 with a vision field of 30, and its cooldown clock starts at 0 |
| Game.GameObject.Ball | game.py:189-192 | a new ball keeps its direction, starts at the given position and has id 0 until it is registered |
| Game.GameObject.ReduceField | game.py:98-108 | the field becomes `Rules.ReducedField` of the old field; nothing else changes |
| Game.GameObject.EnlargeField | game.py:110-120 | the field becomes `Rules.EnlargedField` of the old field; nothing else changes |
| Game.GameObject.TurnLeft | game.py:122-128 | the angle decreases by `v`; nothing else changes |
| Game.GameObject.TurnRight | game.py:130-136 | the angle increases by `v`; nothing else changes |
| Game.GameObject.Forward | game.py:151-162 | the position becomes `Rules.Forwarded` of the old position, facing the current angle; nothing else changes |
| Game.GameObject.Shoot | game.py:138-149 | for `v <= 1` nothing changes; otherwise the clock ticks, and a ball facing the character's way is appended at its position with the next id exactly when a full cooldown has passed; ids stay equal to indices |
| Game.GameObject.OnUpdate | game.py:194-203 | world and characters do nothing; a ball either moves to its next position inside the window, or stays and is popped from the list with the later ids shifted down |
| Game.App.constructor | main.py:13-26 | the list is the world with id 0, the red character at (int(w/4), int(h/2)) with id 1 and the green one at (int(3w/4), int(h/2)) with id 2; not running |
| Game.App.AddObject | main.py:28-35 | the object is appended with the old length as its id; other ids are unchanged, so ids stay equal to indices |
| Game.App.RemoveObject | main.py:37-45 | the object at `i` is popped; earlier objects keep slot and id, later ones move down one slot and lose exactly one from their id; ids stay equal to indices |
| Game.App.OnEvent | main.py:56-65 | a QUIT event clears the running flag; any other event changes nothing |
| Game.App.ManageKeys | main.py:67-80 | only object 1 changes: up moves it forward by the move step, left and right turn it by the turn step, space fires nothing; the list is unchanged |
| Game.App.OnUpdate | main.py:83-89 | the loop leaves the list's snapshots equal to `Rules.Pass` of the snapshots it started with; ids stay equal to indices; no object is added; the layout is kept |
| Game.App.Visit | main.py:88-89 | one iteration: the object at `idx` is dropped from the snapshots if it exits, and is replaced by its stepped value otherwise |
| Game.AddThenRemove | main.py:28-45 | removing the object just added restores the list and every id |
| Game.TurnLeftThenRight | game.py:122-136 | turning left and then right by the same amount restores the angle |
| Game.ShootTwice | game.py:138-149 | two shots less than a cooldown apart append at most one ball and leave the existing list in front |
| Controller.Dot | controller.py:18-20 | the weighted sum of the inputs, each input times the weight at its index, starting from 0 |
| Controller.DotSnoc | controller.py:19-20 | one more input adds its weight times its value: the step of the accumulation loop |
| Controller.DotIgnoresExtraWeights | controller.py:19-20 | weights beyond the inputs do not affect the sum |
| Controller.DotConcat | controller.py:18-20 | the sum over `a + b` is the sum over `a` plus the sum over `b` under the weights after `a`'s |
| Controller.Neuron.constructor | controller.py:6-10 | entry, output and weights are stored; the value to send starts at 0 |
| Controller.Neuron.Update | controller.py:12-20 | with a weight for every input, the value to send becomes the weighted sum of the inputs, whatever it was before; with too few weights the update fails, leaving the partial sum over the inputs that have weights; weights, entry and output are unchanged |
| Controller.Neuron.SetGenome | controller.py:22-28 | the weights are replaced; entry, output and the value to send are unchanged |
| Controller.Controller.constructor | controller.py:35-37 | a controller starts with no entry and keeps its character |

## Left out

- Rendering: every `on_render`, the surfaces and the drawing in `World.__init__` and `App.on_render`. This is graphics output.
- The main loop `on_mainloop`, `on_exit` and the script entry point. They poll pygame events, pace frames and present the screen; the model provides one frame's pieces (`OnEvent`, `ManageKeys`, `OnUpdate`).
- `pygame.key.set_repeat` and the application's own frame clock: I/O without effect on the state modelled.
- The window object: the model assumes a window of WINDOW_WIDTH by WINDOW_HEIGHT, as the script creates it (main.py:118), so the application's constructor takes the start positions from the `Config` values instead of asking the window for its size.
- The values in `settings.py`: settings.py is not part of this model, so every rule takes a `Config`.
- Trigonometry: cos, sin and radians are floating point, so a `heading` function is given as a parameter.
- Floating point in general: coordinates and angles are mathematical reals, so rounding errors are not modelled.
- `Controller.check_entry` and `Controller.play`: empty stubs with no behaviour.
- Game.App.RemoveObject: requires ids equal to indices and an index in range. The only caller is a ball passing its own id, and the list keeps that invariant. Python's `pop` also accepts negative indices and raises `IndexError` out of range; neither case is modelled.
- Game.GameObject.OnUpdate: a ball that exits requires the same of the application, for the same reason.
- Game.App.ManageKeys: requires the object at index 1 to be a character. The list's layout guarantees this; on any other object the Python method calls would fail.
- Game.GameObject.Shoot: the pygame clock's first `tick` measures from the clock's creation; the model assumes `now` counts from there too.
- A bound on how far `forward` moves a character: it needs nonlinear real arithmetic with cos and sin, and these are abstract here.
- Controller.Neuron.Update: Python's `IndexError` for an input without a weight becomes the result `ok = false`; the exception itself and its propagation to the caller are not modelled.
