# PongC simulation core in Dafny

This project models the simulation inside PongC, a two-paddle SDL Pong game
written in C (`src/main.c`). The model covers:

- the ball and the paddles;
- their collision rectangles and the overlap test on them;
- the human and computer paddle controllers;
- the collision, bounce and scoring resolver and the round reset;
- the fixed order of steps in one frame (`PongC_Update`) and the main loop;
- the command-line scan, the start-up return codes and `main`'s exit code.

The game keeps its state in C globals. The model gathers them in one class,
`Pong.GameState`, whose fields are updated in place. Its methods model the
state-changing C functions: `PongC_CreatePlayer`, `PongC_Reset`, the three
paddle updates, `PongC_BallUpdate`, `PongC_HandleCollisions`, `PongC_Update`,
`PongC_Run`, `PongC_Init` and `main`. Two methods have no C function of their own:

- `KeyCommands` is the key-command tail of `PongC_Update`, split out as a step;
- `SetPaddle` writes a paddle back to the global it came from.

`PongC_AssignPlayerCollision` and `PongC_AssignBallCollision` only compute a
rectangle, so they are the functions `Entities.PlayerCollision` and
`Entities.BallCollision`. Of `PongC_Quit`, only the cleared running flag is
modelled, inside `RunProgram`.

Each method's contract ties what it changes to a pure function:

- `CreatePlayer` returns `Entities.NewPaddle` with the old id counter, and
  advances the counter by `CInt.Inc8`;
- `BallUpdate` changes only the ball, to `Simulation.BallMoved`;
- every other method leaves the state that a function of module `Simulation`
  computes from the old state, a `Simulation.World`.

The properties the game promises are proved about those functions: the
invariants they keep, the collision tie-break, goals, the serve, and the
paddle bounds. The class states its invariant as `Valid()`. `Reset`,
`HandleCollisions`, `Update`, `Run` and a successful `Init` are proved to keep it.

Modules:

- `CInt`: C's `/` (truncation toward zero) and the `uint16_t`/`uint8_t` wrap-around.
- `Geometry`: `SDL_FRect` and `SDL_HasIntersectionF`.
- `Entities`: ball, paddle, their hit boxes, and the paddle a new round creates.
- `Startup`: command-line flags, `PongC_Init`'s return codes, `main`'s exit code.
- `Simulation`: the whole game state as a value and each step as a function.
- `Pong`: the `GameState` class.

Modelling decisions:

- Window width and height, the keys held and the mouse's y are parameters.
  The model does not read them from SDL. Window sizes are `nat`, as SDL reports them.
- The speed multiplier is a C `float`. The model keeps it as an exact integer in
  hundredths: 300 is 3.0, a paddle hit adds 15, F2 and F3 subtract and add 50.
  `x += DirectionX * multiplier` stores a float sum back into an `int`, and C
  truncates that sum toward zero. The model computes the new x as
  `CInt.Div(100 * x + dirX * speed, 100)`, and y the same way with `speed - 100`.
- Collision rectangles hold exact reals. `SDL_HasIntersectionF` is not part of
  the repository. It is modelled on SDL2's definition, which is an assumption of
  the model: a rectangle of zero width or height meets nothing, and rectangles
  that only touch along an edge do not intersect.
- Ball and paddles are C structs reached through pointers. They become
  datatype values in the object's fields. The paddle functions take a `Slot`
  that names the global pointer they were passed (`PongC_Player1` or `PongC_Player2`).
  The two pointers never alias, so nothing is lost by this.
- The ball and paddle pointers are null until the first reset. Zeroed records
  stand in for them in the initial state `Simulation.Boot`.
- Each SDL backend call in `PongC_Init` becomes one boolean of `Startup.Backend`
  that says whether it succeeded.

Two facts about the paddle controllers are worth stating, because a reader
might expect otherwise:

- In a window at least height + 11 px high (161 px for the standard paddle), a
  computer paddle ends in [5, H - height - 5]. The code snaps a paddle only when
  its y is below 5, or when its bottom is less than 5 px from the window's bottom.
  The snap puts it 6 px inside that edge. In a shorter window the bottom snap to
  H - height - 6 wins, even after the top snap, so the paddle can end above the
  window (main.c:299-302, `Simulation.ComputerY`).
- Human paddles are never clamped. A key step that would leave the window is
  refused, and the mouse position is taken as it is (main.c:257-287, `Simulation.HumanY`).

## Model

| member | source | states |
|---|---|---|
| `CInt.Div` | src/main.c:326-330 | the result is the exact quotient rounded toward zero, as C's `/` and float-to-int conversion give it |
| `CInt.Inc16` | src/main.c:351-360 | a score increment adds one and wraps 65535 to 0 (`uint16_t`) |
| `CInt.Inc8` | src/main.c:179 | the id counter increment adds one and wraps 255 to 0 (`uint8_t`) |
| `Geometry.HasIntersection` | src/main.c:338-339 | the clipping test is true exactly when both rectangles have area and they overlap strictly on both axes |
| `Entities.BallCollision` | src/main.c:162-171 | the ball box is a square of side 1.5 * radius that holds the centre; for radius 15 it is [x-10, x+12.5] on both axes |
| `Entities.PlayerCollision` | src/main.c:151-160 | the paddle box covers exactly the paddle's area, and is empty exactly when the paddle has no area |
| `Entities.NewPaddle` | src/main.c:173-192 | a new paddle is 15 by 150 and keeps its side, type and id; the left one stands 10 px from the left edge, the right one ends 10 px from the right edge; it is vertically centred |
| `Startup.ScannedArgs` | src/main.c:585-591 | the scanned arguments are the longest prefix without `--help`: all arguments if there is none, otherwise up to its first occurrence |
| `Startup.ScannedArgsStopAtFirstHelp` | src/main.c:587-591 | arguments after the first `--help` are never read |
| `Startup.ApplyOption` | src/main.c:593-608 | each known option sets exactly its own flag, any other argument changes nothing, and the result is `FlagsAfter`, the membership definition of the scan, applied to that one argument |
| `Startup.ParseArguments` | src/main.c:582-610 | help is reported exactly when `--help` follows the program name; each flag is set exactly when its option occurs before the first `--help`, whatever its position or repetition |
| `Startup.InitCode` | src/main.c:574-693 | 2 exactly for `--help`, 0 exactly when every backend stage succeeds, and -2, -3, -4, -5 exactly for the first failing stage (SDL, TTF, window, renderer); a missing font is not a failure |
| `Startup.MainExit` | src/main.c:715-722 | `main` exits with 0 exactly when start-up returned 0, and with -1 otherwise, help included |
| `Simulation.Reset` | src/main.c:224-250 | after a reset the ball is stationary at (W/2, H/2) with radius 15 and box [x-10, x+12.5]; the paddles are 15 by 150, on sides -1 and 1, centred, with ids drawn from the counter (0 and 1 when it was 0); the speed is 3.0; the round is not started; the counter is 0; scores and flags are unchanged; the invariant is re-established |
| `Simulation.HumanY` | src/main.c:253-288 | the result is pinned in every key case: with no key held the paddle stays at its start (the mouse target under mouse control); up alone moves 5 px up exactly when the paddle's top stays at or below the window's top edge, and otherwise leaves it; down alone moves it 5 px down exactly when its bottom stays within the window, and otherwise leaves it; with both keys held it stays, or takes whichever single step the window allows; a paddle inside the window stays inside |
| `Simulation.ComputerY` | src/main.c:291-303 | a computer paddle takes `ball.y + 5*DirY` only when the ball heads to its side; a target that clears both edges by 5 px is kept; a target above that snaps to 6, unless the window is too short, when it snaps to h - height - 6; a target whose bottom comes within 5 px of the bottom edge snaps to h - height - 6; in a window at least 161 px high the result lies within [5, H - height - 5] |
| `Simulation.PaddleUpdated` | src/main.c:305-322 | the update dispatches on the paddle type; it puts the left paddle at x = 10 and the right paddle 10 px from the right edge; width, height, side, type and id never change |
| `Simulation.BallMoved` | src/main.c:324-331 | the new x is x + DirX * m truncated toward zero, and the new y is y + DirY * (m - 1) truncated toward zero; directions and radius do not change |
| `Simulation.WholeSpeedMovesExactly` | src/main.c:324-331 | with a whole multiplier m the ball moves by exactly (DirX * m, DirY * (m - 1)) |
| `Simulation.FractionalSpeedIsAsymmetric` | src/main.c:326-327 | at multiplier 3.15, truncation toward zero moves a ball at x = 10 by 4 px to the left but by 3 px to the right |
| `Simulation.BallAdvanced` | src/main.c:427-428 | the centre moves to the exact step truncated toward zero; directions and radius are kept; the new box holds the new centre and, at radius 15, is the 22.5 px square from (x-10, y-10); nothing else changes |
| `Simulation.Bounced` | src/main.c:335-349 | an edge hit (y < 1 or y > H - 1) negates DirY only, even when a paddle is hit too; otherwise a paddle hit negates DirX and adds exactly 0.15; otherwise nothing changes |
| `Simulation.Scored` | src/main.c:351-360 | x < 0 scores one for player 2 and x > W one for player 1; either starts a fresh round, the other score is unchanged, and at most one score changes |
| `Simulation.CollisionsResolved` | src/main.c:333-361 | resolving collisions keeps the direction invariant and the paddle layout |
| `Simulation.PaddlesAdvanced` | src/main.c:430-434 | only the paddles' x and y and their boxes change; the layout (sides, ids, sizes) is kept; each box is the standard 15 by 150 rectangle at its paddle's new y, the left at x = 10 and the right ending 10 px from W; in a window at least 161 px high a computer paddle ends within [5, H - height - 5] |
| `Simulation.Commands` | src/main.c:436-457 | Space serves with direction (-1, -1) only when the round has not started, and changes nothing otherwise; Escape stops the game; F2 and F3 change the speed by -0.5 and +0.5 on each frame, without bound; nothing else changes |
| `Simulation.ServeOnce` | src/main.c:436-442 | serving twice has the same effect as serving once |
| `Simulation.Ticked` | src/main.c:423-458 | one frame keeps the invariant (each direction in {-1,0,1}, Started iff DirX != 0 iff DirY != 0) and the paddle layout; Escape stops the game; after Space the round has started |
| `Simulation.Run` | src/main.c:501-532 | the main loop keeps the invariant and the paddle layout over any number of frames; once stopped, it changes nothing |
| `Simulation.StoppedStaysStopped` | src/main.c:505-520 | frames after a quit or an Escape are never simulated |
| `Simulation.InitFlags` | src/main.c:585-644 | start-up leaves the scanned flags, with text rendering turned off exactly when the font failed to load after SDL and TTF started |
| `Simulation.Initialized` | src/main.c:574-694 | a successful start-up begins a fresh round with the invariant and paddle layout in place; any other result changes only the flags |
| `Pong.GameState.constructor` | src/main.c:46-107 | the globals start with the round not started, speed 3.0, scores 0, counter 0 and the default flags |
| `Pong.GameState.CreatePlayer` | src/main.c:173-192 | the new paddle takes the counter's value as its id; the counter advances by one (mod 256); the box is the paddle's |
| `Pong.GameState.Reset` | src/main.c:224-250 | the new state is `Simulation.Reset` of the old one, and the class invariant is kept |
| `Pong.GameState.PlayerUpdateHuman` | src/main.c:253-288 | only the chosen paddle's y changes, to `Simulation.HumanY` |
| `Pong.GameState.PlayerUpdateComputer` | src/main.c:291-303 | only the chosen paddle's y changes, to `Simulation.ComputerY` |
| `Pong.GameState.PlayerUpdate` | src/main.c:305-322 | only the chosen paddle changes, to `Simulation.PaddleUpdated` |
| `Pong.GameState.BallUpdate` | src/main.c:324-331 | only the ball changes, to `Simulation.BallMoved` |
| `Pong.GameState.HandleCollisions` | src/main.c:333-361 | the new state is `Simulation.CollisionsResolved` of the old one, and the class invariant is kept |
| `Pong.GameState.KeyCommands` | src/main.c:436-457 | the new state is `Simulation.Commands` of the old one |
| `Pong.GameState.Update` | src/main.c:423-458 | the new state is `Simulation.Ticked` of the old one, in the source's step order, and the invariant is kept |
| `Pong.GameState.Run` | src/main.c:501-532 | the loop sets the game running and leaves `Simulation.Run` of the frames, and the class invariant is kept |
| `Pong.GameState.Init` | src/main.c:574-694 | returns `Startup.InitCode` and leaves `Simulation.Initialized`; after a successful start-up the class invariant holds |
| `Pong.GameState.RunProgram` | src/main.c:715-722 | returns `Startup.MainExit` of the start-up code; it runs the loop and clears the running flag only after a successful start-up |

## Left out

- Rendering and text are not modelled: `PongC_RenderFillCircle`, `PongC_RenderDrawText`, `PongC_RenderUI`,
  `PongC_Render`, `PongC_BallRender`, `PongC_PlayerRender`, `PongC_DrawCollisions`, `PongC_ClearScreen`,
  `PongC_InitWindowIcon` and `PongC_GetColor`. They only produce output. The flags that affect only
  rendering or the backend (`--no-text`, `--resizable`, `--no-vsync`, `--render-collisions`) are parsed
  but have no further effect in the model.
- Event handling is reduced to one boolean per frame, `Frame.quit`, which stands for an `SDL_QUIT` event
  polled in that frame. `PongC_HandleEvents`, `PongC_OnKeyDown` and `PongC_OnKeyUp` only print the help
  text and are not modelled. `PongC_HandleEvents` also has no return value on its non-quit paths.
- The SDL and SDL_ttf calls of `PongC_Init` (`SDL_Init`, `TTF_Init`, `TTF_OpenFont`, `SDL_CreateWindow`,
  `SDL_CreateRenderer`) appear only as their success or failure. Every `printf` diagnostic and the help
  text are left out.
- Memory management is not modelled: `malloc`, `free`, and the leak of the old ball and paddles in
  `PongC_Reset`. `PongC_Quit` is modelled only as clearing the running flag.
- Float behaviour is idealised: the multiplier is exact in hundredths, with no drift from adding `0.15f`;
  rectangles use exact reals; and a float too large for `int` is not modelled (C leaves that undefined).
- Integer positions are unbounded, so C `int` overflow (for instance `ball.y + 1` at `INT_MAX`) is not modelled.
- `SDL_GetWindowSize`, `SDL_GetKeyboardState` and `SDL_GetMouseState` become parameters, read once per
  frame; the model assumes the window does not change size during one `PongC_Update`.
- The vsync wait, the frame rate, and the `PONGC_DEBUG` banner are not modelled.
- `Pong.GameState.RunProgram` takes `frames` as the finite sequence of frames observed. When that
  sequence ends with the game still running, the model goes on to the shutdown and returns 0. The C
  loop only ends after a quit event or Escape, so `main` returns only once the loop has stopped.
