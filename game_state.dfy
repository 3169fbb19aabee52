/**
 * The game's global state as one object. Each method performs one C
 * function of the game, updating fields in place, and is proved to leave
 * the state that the matching function of `Simulation` describes.
 * Window sizes, keyboard and mouse state are parameters rather than SDL
 * queries.
 */
module Pong {
  import opened CInt
  import opened Geometry
  import opened Entities
  import opened Startup
  import opened Simulation

  class GameState {
    var ball: Ball
    var ballCollision: Rect
    var player1: Paddle
    var player1Collision: Rect
    var player1Points: int
    var player2: Paddle
    var player2Collision: Rect
    var player2Points: int
    var globalPlayersId: int
    var speed: int
    var started: bool
    var isRunning: bool
    var flags: Flags

    /** The globals as one value. */
    function State(): World
      reads this
    {
      World(ball, ballCollision, player1, player1Collision, player1Points,
            player2, player2Collision, player2Points, globalPlayersId, speed, started, isRunning, flags)
    }

    ghost predicate Valid()
      reads this
    {
      Consistent(State())
    }

    /** The globals' static initial values. */
    constructor ()
      ensures State() == Boot && Valid()
    {
      ball := Ball(0, 0, 0, 0, 0);
      ballCollision := Rect(0.0, 0.0, 0.0, 0.0);
      player1 := Paddle(0, 0, 0, 0, 0, Human, 0);
      player1Collision := Rect(0.0, 0.0, 0.0, 0.0);
      player1Points := 0;
      player2 := Paddle(0, 0, 0, 0, 0, Human, 0);
      player2Collision := Rect(0.0, 0.0, 0.0, 0.0);
      player2Points := 0;
      globalPlayersId := 0;
      speed := BaseSpeed;
      started := false;
      isRunning := false;
      flags := Defaults;
    }

    /** `PongC_CreatePlayer`: a new paddle with the next id from the global counter, and its box. */
    method CreatePlayer(side: int, kind: PlayerType, w: nat, h: nat) returns (p: Paddle, collision: Rect)
      modifies this`globalPlayersId
      ensures p == NewPaddle(side, kind, old(globalPlayersId), w, h)
      ensures collision == PlayerCollision(p)
      ensures globalPlayersId == Inc8(old(globalPlayersId))
    {
      p := NewPaddle(side, kind, globalPlayersId, w, h);
      globalPlayersId := Inc8(globalPlayersId);
      collision := PlayerCollision(p);
    }

    /** `PongC_Reset`. */
    method Reset(w: nat, h: nat)
      modifies this
      ensures State() == Simulation.Reset(old(State()), w, h)
      ensures old(Valid()) ==> Valid()
    {
      ball := Ball(w / 2, h / 2, 0, 0, BallRadius);
      ballCollision := BallCollision(ball);
      var kind1 := if flags.noPlayer1 then Computer else Human;
      var kind2 := if flags.noPlayer2 then Computer else Human;
      player1, player1Collision := CreatePlayer(-1, kind1, w, h);
      player2, player2Collision := CreatePlayer(1, kind2, w, h);
      started := false;
      speed := BaseSpeed;
      globalPlayersId := 0;
    }

    /** Stores `p` through the paddle pointer `slot`. */
    method SetPaddle(slot: Slot, p: Paddle)
      modifies this
      ensures State() == WithPaddle(old(State()), slot, p)
    {
      if slot == Player1 {
        player1 := p;
      } else {
        player2 := p;
      }
    }

    /** `PongC_PlayerUpdateHuman` on the paddle `slot`. */
    method PlayerUpdateHuman(slot: Slot, input: Input, h: nat)
      modifies this
      ensures var p := PaddleAt(old(State()), slot);
              State() == WithPaddle(old(State()), slot, p.(y := HumanY(p, flags, input, h)))
    {
      var p := if slot == Player1 then player1 else player2;
      ghost var p0 := p;
      if flags.mousePlayer1 {
        if p.id == 0 {
          p := p.(y := input.mouseY - Div(p.height, 2));
        }
      }
      if flags.mousePlayer2 {
        if p.id != 0 {
          p := p.(y := input.mouseY - Div(p.height, 2));
        }
      }
      assert p == p0.(y := MouseTarget(p0, flags, input));
      var moveUp := false;
      var moveDown := false;
      if p.id == 0 {
        if KeyW in input.keys {
          moveUp := true;
        }
        if KeyS in input.keys {
          moveDown := true;
        }
      } else {
        if KeyUp in input.keys {
          moveUp := true;
        }
        if KeyDown in input.keys {
          moveDown := true;
        }
      }
      assert moveUp == (UpKey(p0) in input.keys) && moveDown == (DownKey(p0) in input.keys);
      if moveUp && !(p.y - PaddleStep < 0) {
        p := p.(y := p.y - PaddleStep);
      }
      if moveDown && !(p.y + p.height + PaddleStep > h) {
        p := p.(y := p.y + PaddleStep);
      }
      SetPaddle(slot, p);
    }

    /** `PongC_PlayerUpdateComputer` on the paddle `slot`. */
    method PlayerUpdateComputer(slot: Slot, h: nat)
      modifies this
      ensures var p := PaddleAt(old(State()), slot);
              State() == WithPaddle(old(State()), slot, p.(y := ComputerY(p, ball, h)))
    {
      var p := if slot == Player1 then player1 else player2;
      if p.side == ball.dirX {
        p := p.(y := ball.y + 5 * ball.dirY);
      }
      if p.y - 5 < 0 {
        p := p.(y := 6);
      }
      if p.y + p.height + 5 > h {
        p := p.(y := h - p.height - 6);
      }
      SetPaddle(slot, p);
    }

    /** `PongC_PlayerUpdate` on the paddle `slot`. */
    method PlayerUpdate(slot: Slot, input: Input, w: nat, h: nat)
      modifies this
      ensures State() == WithPaddle(old(State()), slot, PaddleUpdated(PaddleAt(old(State()), slot), flags, ball, input, w, h))
    {
      if PaddleAt(State(), slot).kind == Human {
        PlayerUpdateHuman(slot, input, h);
      }
      if PaddleAt(State(), slot).kind == Computer {
        PlayerUpdateComputer(slot, h);
      }
      var p := PaddleAt(State(), slot);
      if p.side == -1 {
        p := p.(x := SideGap);
      }
      if p.side == 1 {
        p := p.(x := w - p.width - SideGap);
      }
      SetPaddle(slot, p);
    }

    /** `PongC_BallUpdate`. */
    method BallUpdate()
      modifies this`ball
      ensures ball == BallMoved(old(ball), speed)
    {
      if ball.dirX != 0 {
        ball := ball.(x := Div(100 * ball.x + ball.dirX * speed, 100));
      }
      if ball.dirY != 0 {
        ball := ball.(y := Div(100 * ball.y + ball.dirY * (speed - 100), 100));
      }
    }

    /** `PongC_HandleCollisions`. */
    method HandleCollisions(w: nat, h: nat)
      modifies this
      ensures State() == CollisionsResolved(old(State()), w, h)
      ensures old(Valid()) ==> Valid()
    {
      var future := ballCollision.(x := ballCollision.x + (5 * ball.dirX) as real);
      var collision := HasIntersection(future, player1Collision) || HasIntersection(future, player2Collision);
      var edge := ball.y - 1 < 0 || ball.y + 1 > h;
      if edge {
        ball := ball.(dirY := ball.dirY * -1);
      } else if collision {
        ball := ball.(dirX := ball.dirX * -1);
        speed := speed + HitSpeedup;
      }
      if ball.x < 0 {
        player2Points := Inc16(player2Points);
        Reset(w, h);
      }
      if ball.x > w {
        player1Points := Inc16(player1Points);
        Reset(w, h);
      }
    }

    /** The key commands that end `PongC_Update`: serve, quit, slower, faster. */
    method KeyCommands(keys: set<Key>)
      modifies this
      ensures State() == Commands(old(State()), keys)
    {
      if KeySpace in keys && !started {
        started := true;
        ball := ball.(dirX := -1, dirY := -1);
      }
      if KeyEscape in keys {
        isRunning := false;
      }
      if KeyF2 in keys {
        speed := speed - SpeedKeyStep;
      }
      if KeyF3 in keys {
        speed := speed + SpeedKeyStep;
      }
    }

    /** `PongC_Update`: one frame of simulation. */
    method Update(input: Input, w: nat, h: nat)
      modifies this
      ensures State() == Ticked(old(State()), input, w, h)
      ensures old(Valid()) ==> Valid()
    {
      HandleCollisions(w, h);
      ghost var resolved := State();
      BallUpdate();
      ballCollision := BallCollision(ball);
      assert State() == BallAdvanced(resolved);
      ghost var advanced := State();
      PlayerUpdate(Player1, input, w, h);
      PlayerUpdate(Player2, input, w, h);
      player1Collision := PlayerCollision(player1);
      player2Collision := PlayerCollision(player2);
      assert State() == PaddlesAdvanced(advanced, input, w, h);
      KeyCommands(input.keys);
    }

    /**
     * The loop of `PongC_Run` over the frames it gets to: it sets the game
     * running, and while it runs each frame either quits or is simulated.
     */
    method Run(frames: seq<Frame>)
      modifies this
      ensures State() == Simulation.Run(old(State()).(running := true), frames)
      ensures old(Valid()) ==> Valid()
    {
      ghost var start := State().(running := true);
      isRunning := true;
      var i := 0;
      while i < |frames| && isRunning
        invariant 0 <= i <= |frames|
        invariant State() == Simulation.Run(start, frames[..i])
      {
        assert frames[..i + 1][..i] == frames[..i];
        var frame := frames[i];
        if frame.quit {
          isRunning := false;
        } else {
          Update(frame.input, frame.w, frame.h);
        }
        i := i + 1;
      }
      if i < |frames| {
        StoppedStaysStopped(start, frames, i);
      } else {
        assert frames[..i] == frames;
      }
    }

    /**
     * `PongC_Init`: scan the arguments, then bring up the backend (whose
     * outcomes are given), and start the first round when all went well.
     */
    method Init(argv: seq<string>, backend: Backend, w: nat, h: nat) returns (code: int)
      modifies this
      ensures code == InitCode(HelpRequested(argv), backend)
      ensures State() == Initialized(old(State()), argv, backend, w, h)
      ensures old(Valid()) && code == 0 ==> Valid()
    {
      var help, parsed := ParseArguments(argv, flags);
      flags := parsed;
      if help {
        return 2;
      }
      if !backend.sdl {
        return -2;
      }
      if !backend.ttf {
        return -3;
      }
      if !backend.font {
        flags := flags.(renderText := false);
      }
      if !backend.window {
        return -4;
      }
      if !backend.renderer {
        return -5;
      }
      assert State() == old(State()).(flags := flags);
      Reset(w, h);
      return 0;
    }

    /**
     * `main`: start up, and on success run the game and shut it down
     * (`PongC_Quit` clears the running flag); any start-up result other
     * than success ends the program with -1.
     */
    method RunProgram(argv: seq<string>, backend: Backend, w: nat, h: nat, frames: seq<Frame>) returns (exit: int)
      modifies this
      ensures exit == MainExit(InitCode(HelpRequested(argv), backend))
      ensures var t := Initialized(old(State()), argv, backend, w, h);
              State() == if exit == 0 then Simulation.Run(t.(running := true), frames).(running := false) else t
    {
      var code := Init(argv, backend, w, h);
      if code != 0 {
        return -1;
      }
      Run(frames);
      isRunning := false;
      return 0;
    }
  }
}
