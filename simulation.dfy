/**
 * The game's global state as one value, and what each step of a frame
 * does to it. These functions specify the methods of `Pong.GameState`,
 * which perform the same steps by updating fields in place.
 *
 * The speed multiplier is kept exactly, in hundredths: 300 is 3.0, a
 * paddle hit adds 15 (0.15) and a speed key 50 (0.5).
 */
module Simulation {
  import opened CInt
  import opened Geometry
  import opened Entities
  import opened Startup

  /** The keys whose state the simulation reads. */
  datatype Key = KeyW | KeyS | KeyUp | KeyDown | KeySpace | KeyEscape | KeyF2 | KeyF3

  /** The keyboard and mouse state one frame reads: keys held and the pointer's y. */
  datatype Input = Input(keys: set<Key>, mouseY: int)

  /** One pass of the main loop: whether a quit event arrived, the input, and the window size. */
  datatype Frame = Frame(quit: bool, input: Input, w: nat, h: nat)

  /** Multiplier at the start of a round (3.0), per paddle hit (0.15), per speed key (0.5). */
  const BaseSpeed := 300
  const HitSpeedup := 15
  const SpeedKeyStep := 50

  /** How far a human paddle moves per frame and a key. */
  const PaddleStep := 5

  /** Every global of the game that the simulation reads or writes. */
  datatype World = World(
    ball: Ball,
    ballBox: Rect,
    player1: Paddle,
    player1Box: Rect,
    player1Points: int,
    player2: Paddle,
    player2Box: Rect,
    player2Points: int,
    playersId: int,
    speed: int,
    started: bool,
    running: bool,
    flags: Flags)

  /** The two paddle pointers, `PongC_Player1` (left) and `PongC_Player2` (right). */
  datatype Slot = Player1 | Player2

  function PaddleAt(s: World, slot: Slot): Paddle {
    if slot == Player1 then s.player1 else s.player2
  }

  function WithPaddle(s: World, slot: Slot, p: Paddle): World {
    if slot == Player1 then s.(player1 := p) else s.(player2 := p)
  }

  /**
   * The globals before `PongC_Init` runs: zeroed records stand for the
   * ball and paddle pointers, which are null until the first reset.
   */
  const Boot := World(
    Ball(0, 0, 0, 0, 0), Rect(0.0, 0.0, 0.0, 0.0),
    Paddle(0, 0, 0, 0, 0, Human, 0), Rect(0.0, 0.0, 0.0, 0.0), 0,
    Paddle(0, 0, 0, 0, 0, Human, 0), Rect(0.0, 0.0, 0.0, 0.0), 0,
    0, BaseSpeed, false, false, Defaults)

  // ---------------------------------------------------------------------
  // Invariants

  predicate IsDirection(d: int) {
    d == -1 || d == 0 || d == 1
  }

  /**
   * Each direction is -1, 0 or 1, and the round has started exactly when
   * the ball moves horizontally, and exactly when it moves vertically.
   */
  predicate DirectionsAgree(b: Ball, started: bool) {
    IsDirection(b.dirX) && IsDirection(b.dirY) && (started <==> b.dirX != 0) && (started <==> b.dirY != 0)
  }

  /** What holds of the globals between any two steps of the game. */
  predicate Consistent(s: World) {
    DirectionsAgree(s.ball, s.started)
    && 0 <= s.player1Points < 0x1_0000 && 0 <= s.player2Points < 0x1_0000
    && s.playersId == 0
  }

  /** Both paddles have the standard size, the left one id 0, the right one id 1. */
  predicate PaddlesPlaced(s: World) {
    s.player1.side == -1 && s.player1.id == 0
    && s.player2.side == 1 && s.player2.id == 1
    && s.player1.width == PlayerWidth && s.player1.height == PlayerHeight
    && s.player2.width == PlayerWidth && s.player2.height == PlayerHeight
  }

  /** A round as it is right after a reset in a window `w` by `h`. */
  predicate FreshRound(s: World, w: nat, h: nat) {
    s.ball == Ball(w / 2, h / 2, 0, 0, BallRadius)
    && s.ballBox == Rect((w / 2) as real - 10.0, (h / 2) as real - 10.0, 22.5, 22.5)
    && !s.started && s.speed == BaseSpeed && s.playersId == 0
    && s.player1.x == SideGap && s.player2.x + s.player2.width + SideGap == w
    && s.player1.y == h / 2 - PlayerHeight / 2 && s.player2.y == h / 2 - PlayerHeight / 2
    && s.player1Box == PlayerCollision(s.player1) && s.player2Box == PlayerCollision(s.player2)
  }

  // ---------------------------------------------------------------------
  // PongC_Reset

  /**
   * `PongC_Reset`: a new stationary ball in the centre, two new paddles
   * (computer-controlled when the flags say so) drawing their ids from the
   * counter, base speed, round not started; scores and flags untouched.
   */
  function Reset(s: World, w: nat, h: nat): (r: World)
    ensures FreshRound(r, w, h)
    ensures r.player1Points == s.player1Points && r.player2Points == s.player2Points
    ensures r.flags == s.flags && r.running == s.running
    ensures r.player1.kind == (if s.flags.noPlayer1 then Computer else Human)
    ensures r.player2.kind == (if s.flags.noPlayer2 then Computer else Human)
    ensures r.player1.id == s.playersId && r.player2.id == Inc8(s.playersId)
    ensures r.player1.side == -1 && r.player2.side == 1
    ensures r.player1.width == PlayerWidth && r.player1.height == PlayerHeight
    ensures r.player2.width == PlayerWidth && r.player2.height == PlayerHeight
    ensures s.playersId == 0 ==> PaddlesPlaced(r)
    ensures 0 <= s.player1Points < 0x1_0000 && 0 <= s.player2Points < 0x1_0000 ==> Consistent(r)
  {
    var ball := Ball(w / 2, h / 2, 0, 0, BallRadius);
    var kind1 := if s.flags.noPlayer1 then Computer else Human;
    var kind2 := if s.flags.noPlayer2 then Computer else Human;
    var p1 := NewPaddle(-1, kind1, s.playersId, w, h);
    var p2 := NewPaddle(1, kind2, Inc8(s.playersId), w, h);
    s.(ball := ball, ballBox := BallCollision(ball),
       player1 := p1, player1Box := PlayerCollision(p1),
       player2 := p2, player2Box := PlayerCollision(p2),
       started := false, speed := BaseSpeed, playersId := 0)
  }

  // ---------------------------------------------------------------------
  // Paddle controllers

  /** Paddle 0 follows the mouse under `--mouse-player1`, the other one under `--mouse-player2`. */
  predicate MouseControlled(p: Paddle, f: Flags) {
    (f.mousePlayer1 && p.id == 0) || (f.mousePlayer2 && p.id != 0)
  }

  /** Paddle 0 moves with W and S, the other one with the arrow keys. */
  function UpKey(p: Paddle): Key {
    if p.id == 0 then KeyW else KeyUp
  }

  function DownKey(p: Paddle): Key {
    if p.id == 0 then KeyS else KeyDown
  }

  /** Where a human paddle stands before the keys act: centred on the pointer if mouse-controlled. */
  function MouseTarget(p: Paddle, f: Flags, input: Input): int {
    if MouseControlled(p, f) then input.mouseY - Div(p.height, 2) else p.y
  }

  /**
   * The new y of a human paddle (`PongC_PlayerUpdateHuman`). The mouse
   * position is taken unclamped; then each held key moves the paddle by
   * one step, unless that step would take it out of the window, in which
   * case it is refused rather than shortened.
   */
  function HumanY(p: Paddle, f: Flags, input: Input, h: nat): (y: int)
    ensures var y0 := MouseTarget(p, f, input);
            y == y0 - PaddleStep || y == y0 || y == y0 + PaddleStep
    ensures var y0 := MouseTarget(p, f, input);
            0 <= y0 && y0 + p.height <= h ==> 0 <= y && y + p.height <= h
    ensures var y0 := MouseTarget(p, f, input);
            UpKey(p) in input.keys && DownKey(p) !in input.keys ==>
              y == if y0 >= PaddleStep then y0 - PaddleStep else y0
    ensures var y0 := MouseTarget(p, f, input);
            DownKey(p) in input.keys && UpKey(p) !in input.keys ==>
              y == if y0 + p.height + PaddleStep <= h then y0 + PaddleStep else y0
    ensures var y0 := MouseTarget(p, f, input);
            UpKey(p) in input.keys && DownKey(p) in input.keys && y0 >= PaddleStep ==>
              y == if y0 + p.height <= h then y0 else y0 - PaddleStep
    ensures var y0 := MouseTarget(p, f, input);
            UpKey(p) in input.keys && DownKey(p) in input.keys && y0 < PaddleStep ==>
              y == if y0 + p.height + PaddleStep <= h then y0 + PaddleStep else y0
    ensures UpKey(p) !in input.keys && DownKey(p) !in input.keys ==> y == MouseTarget(p, f, input)
  {
    var y0 := MouseTarget(p, f, input);
    var y1 := if UpKey(p) in input.keys && !(y0 - PaddleStep < 0) then y0 - PaddleStep else y0;
    if DownKey(p) in input.keys && !(y1 + p.height + PaddleStep > h) then y1 + PaddleStep else y1
  }

  /** The y a computer paddle aims at: just ahead of the ball when it heads its way, else its own. */
  function TrackTarget(p: Paddle, b: Ball): int {
    if p.side == b.dirX then b.y + 5 * b.dirY else p.y
  }

  /**
   * The new y of a computer paddle (`PongC_PlayerUpdateComputer`): it takes
   * its target and, when that lies within 5 pixels of an edge or beyond,
   * snaps to 6 pixels inside that edge.
   */
  function ComputerY(p: Paddle, b: Ball, h: nat): (y: int)
    ensures h >= p.height + 11 ==> 5 <= y && y + p.height + 5 <= h
    ensures var t := TrackTarget(p, b); 5 <= t && t + p.height + 5 <= h ==> y == t
    ensures TrackTarget(p, b) < 5 && 6 + p.height + 5 <= h ==> y == 6
    ensures var t := TrackTarget(p, b);
            (t < 5 && 6 + p.height + 5 > h) || t + p.height + 5 > h ==> y == h - p.height - 6
  {
    var y0 := TrackTarget(p, b);
    var y1 := if y0 - 5 < 0 then 6 else y0;
    if y1 + p.height + 5 > h then h - p.height - 6 else y1
  }

  /**
   * `PongC_PlayerUpdate`: the controller of the paddle's kind sets y, then
   * x is recomputed from the side and the current window width. Size,
   * side, kind and id never change.
   */
  function PaddleUpdated(p: Paddle, f: Flags, b: Ball, input: Input, w: nat, h: nat): (q: Paddle)
    ensures q == p.(x := q.x, y := q.y)
    ensures p.side == -1 ==> q.x == SideGap
    ensures p.side == 1 ==> q.x + q.width + SideGap == w
    ensures p.side != -1 && p.side != 1 ==> q.x == p.x
    ensures q.y == if p.kind == Human then HumanY(p, f, input, h) else ComputerY(p, b, h)
  {
    var y := if p.kind == Human then HumanY(p, f, input, h) else ComputerY(p, b, h);
    var x := if p.side == -1 then SideGap else if p.side == 1 then w - p.width - SideGap else p.x;
    p.(x := x, y := y)
  }

  // ---------------------------------------------------------------------
  // PongC_BallUpdate

  /**
   * `q` is `n / 100` rounded toward zero: how C turns the float sum of an
   * `int` position and a multiplier-scaled step back into an `int`.
   */
  predicate TruncatedHundredths(n: int, q: int) {
    (0 <= n ==> 100 * q <= n < 100 * q + 100) && (n < 0 ==> 100 * q - 100 < n <= 100 * q)
  }

  /**
   * `PongC_BallUpdate`: x moves by dirX times the multiplier and y by dirY
   * times one less than the multiplier; each new coordinate is the exact
   * sum truncated toward zero.
   */
  function BallMoved(b: Ball, speed: int): (r: Ball)
    ensures r == b.(x := r.x, y := r.y)
    ensures TruncatedHundredths(100 * b.x + b.dirX * speed, r.x)
    ensures TruncatedHundredths(100 * b.y + b.dirY * (speed - 100), r.y)
  {
    var x := if b.dirX != 0 then Div(100 * b.x + b.dirX * speed, 100) else b.x;
    var y := if b.dirY != 0 then Div(100 * b.y + b.dirY * (speed - 100), 100) else b.y;
    b.(x := x, y := y)
  }

  /** With a whole multiplier m the ball moves exactly (dirX * m, dirY * (m - 1)). */
  lemma WholeSpeedMovesExactly(b: Ball, m: int)
    requires IsDirection(b.dirX) && IsDirection(b.dirY)
    ensures BallMoved(b, 100 * m).x == b.x + b.dirX * m
    ensures BallMoved(b, 100 * m).y == b.y + b.dirY * (m - 1)
  {
    var r := BallMoved(b, 100 * m);
    assert 100 * b.x + b.dirX * (100 * m) == 100 * (b.x + b.dirX * m);
    assert 100 * b.y + b.dirY * (100 * m - 100) == 100 * (b.y + b.dirY * (m - 1));
  }

  /**
   * With a fractional multiplier the truncation is not symmetric: at 3.15 a
   * ball at x = 10 lands on 6 going left but on 13 going right.
   */
  lemma FractionalSpeedIsAsymmetric()
    ensures BallMoved(Ball(10, 100, -1, -1, BallRadius), 315).x == 6
    ensures BallMoved(Ball(10, 100, 1, -1, BallRadius), 315).x == 13
  {
  }

  /**
   * The ball moved and its hit box rebuilt (main.c, `PongC_Update`, second
   * and third steps): the centre moves by the truncated step, directions
   * and radius are kept, and the box is rebuilt around the new centre.
   */
  function BallAdvanced(s: World): (r: World)
    ensures r == s.(ball := r.ball, ballBox := r.ballBox)
    ensures r.ball == s.ball.(x := r.ball.x, y := r.ball.y)
    ensures TruncatedHundredths(100 * s.ball.x + s.ball.dirX * s.speed, r.ball.x)
    ensures TruncatedHundredths(100 * s.ball.y + s.ball.dirY * (s.speed - 100), r.ball.y)
    ensures s.ball.radius > 0 ==> Contains(r.ballBox, r.ball.x as real, r.ball.y as real)
    ensures s.ball.radius == BallRadius ==>
              r.ballBox == Rect(r.ball.x as real - 10.0, r.ball.y as real - 10.0, 22.5, 22.5)
  {
    var b := BallMoved(s.ball, s.speed);
    s.(ball := b, ballBox := BallCollision(b))
  }

  // ---------------------------------------------------------------------
  // PongC_HandleCollisions

  /** The ball is within a pixel of the top or bottom edge, or past it. */
  predicate EdgeHit(b: Ball, h: nat) {
    b.y - 1 < 0 || b.y + 1 > h
  }

  /** The ball's last hit box moved 5 pixels the way the ball goes horizontally. */
  function LookAheadBox(s: World): Rect {
    s.ballBox.(x := s.ballBox.x + (5 * s.ball.dirX) as real)
  }

  /** The look-ahead box meets either paddle's last hit box. */
  predicate PaddleHit(s: World) {
    HasIntersection(LookAheadBox(s), s.player1Box) || HasIntersection(LookAheadBox(s), s.player2Box)
  }

  /**
   * The bounce part of `PongC_HandleCollisions`. An edge hit flips the
   * vertical direction and nothing else, even when a paddle is hit too;
   * otherwise a paddle hit flips the horizontal direction and raises the
   * multiplier by 0.15; otherwise nothing changes.
   */
  function Bounced(s: World, h: nat): (r: World)
    ensures r == s.(ball := r.ball, speed := r.speed)
    ensures r.ball == s.ball.(dirX := r.ball.dirX, dirY := r.ball.dirY)
    ensures EdgeHit(s.ball, h) ==>
              r.ball.dirY == -s.ball.dirY && r.ball.dirX == s.ball.dirX && r.speed == s.speed
    ensures !EdgeHit(s.ball, h) && PaddleHit(s) ==>
              r.ball.dirX == -s.ball.dirX && r.ball.dirY == s.ball.dirY && r.speed == s.speed + HitSpeedup
    ensures !EdgeHit(s.ball, h) && !PaddleHit(s) ==> r == s
  {
    if EdgeHit(s.ball, h) then s.(ball := s.ball.(dirY := s.ball.dirY * -1))
    else if PaddleHit(s) then s.(ball := s.ball.(dirX := s.ball.dirX * -1), speed := s.speed + HitSpeedup)
    else s
  }

  /**
   * The goal part of `PongC_HandleCollisions`: a ball left of the window
   * scores for player 2, one right of it for player 1, and either starts a
   * fresh round. The second test reads the ball after the first one's
   * reset, so at most one score changes.
   */
  function Scored(s: World, w: nat, h: nat): (r: World)
    ensures s.ball.x < 0 ==>
              r.player2Points == Inc16(s.player2Points) && r.player1Points == s.player1Points && FreshRound(r, w, h)
    ensures s.ball.x > w ==>
              r.player1Points == Inc16(s.player1Points) && r.player2Points == s.player2Points && FreshRound(r, w, h)
    ensures 0 <= s.ball.x <= w ==> r == s
    ensures r.flags == s.flags && r.running == s.running
    ensures Consistent(s) ==> Consistent(r)
    ensures Consistent(s) && PaddlesPlaced(s) ==> PaddlesPlaced(r)
  {
    var t := if s.ball.x < 0 then Reset(s.(player2Points := Inc16(s.player2Points)), w, h) else s;
    if t.ball.x > w then Reset(t.(player1Points := Inc16(t.player1Points)), w, h) else t
  }

  /** `PongC_HandleCollisions`: bounce, then score. */
  function CollisionsResolved(s: World, w: nat, h: nat): (r: World)
    ensures Consistent(s) ==> Consistent(r)
    ensures Consistent(s) && PaddlesPlaced(s) ==> PaddlesPlaced(r)
    ensures r.flags == s.flags && r.running == s.running
  {
    Scored(Bounced(s, h), w, h)
  }

  // ---------------------------------------------------------------------
  // PongC_Update

  /**
   * Both paddles updated, then their hit boxes rebuilt: only the paddles'
   * positions move, the layout is kept, each box is the standard paddle
   * rectangle at its paddle's new place, and a computer paddle in a window
   * tall enough ends at least 5 pixels inside it.
   */
  function PaddlesAdvanced(s: World, input: Input, w: nat, h: nat): (r: World)
    ensures r == s.(player1 := r.player1, player2 := r.player2, player1Box := r.player1Box, player2Box := r.player2Box)
    ensures r.player1 == s.player1.(x := r.player1.x, y := r.player1.y)
    ensures r.player2 == s.player2.(x := r.player2.x, y := r.player2.y)
    ensures PaddlesPlaced(s) ==> PaddlesPlaced(r)
    ensures PaddlesPlaced(s) ==>
              r.player1Box == Rect(SideGap as real, r.player1.y as real, PlayerWidth as real, PlayerHeight as real)
    ensures PaddlesPlaced(s) ==>
              r.player2Box == Rect((w - PlayerWidth - SideGap) as real, r.player2.y as real, PlayerWidth as real, PlayerHeight as real)
    ensures PaddlesPlaced(s) && s.player1.kind == Computer && h >= PlayerHeight + 11 ==>
              5 <= r.player1.y && r.player1.y + PlayerHeight + 5 <= h
    ensures PaddlesPlaced(s) && s.player2.kind == Computer && h >= PlayerHeight + 11 ==>
              5 <= r.player2.y && r.player2.y + PlayerHeight + 5 <= h
  {
    var p1 := PaddleUpdated(s.player1, s.flags, s.ball, input, w, h);
    var p2 := PaddleUpdated(s.player2, s.flags, s.ball, input, w, h);
    s.(player1 := p1, player2 := p2, player1Box := PlayerCollision(p1), player2Box := PlayerCollision(p2))
  }

  /**
   * The key commands at the end of `PongC_Update`. Space serves the ball
   * toward the left paddle, once per round; Escape stops the game; F2 and
   * F3 lower and raise the multiplier by 0.5 on every frame they are held,
   * without bound. Nothing else changes.
   */
  function Commands(s: World, keys: set<Key>): (r: World)
    ensures r == s.(ball := r.ball, started := r.started, running := r.running, speed := r.speed)
    ensures KeySpace in keys && !s.started ==> r.started && r.ball == s.ball.(dirX := -1, dirY := -1)
    ensures KeySpace !in keys || s.started ==> r.started == s.started && r.ball == s.ball
    ensures r.running == (s.running && KeyEscape !in keys)
    ensures r.speed == s.speed - (if KeyF2 in keys then SpeedKeyStep else 0) + (if KeyF3 in keys then SpeedKeyStep else 0)
    ensures DirectionsAgree(s.ball, s.started) ==> DirectionsAgree(r.ball, r.started)
  {
    var served := if KeySpace in keys && !s.started then s.(started := true, ball := s.ball.(dirX := -1, dirY := -1)) else s;
    var stopped := if KeyEscape in keys then served.(running := false) else served;
    var slower := if KeyF2 in keys then stopped.(speed := stopped.speed - SpeedKeyStep) else stopped;
    if KeyF3 in keys then slower.(speed := slower.speed + SpeedKeyStep) else slower
  }

  /** Serving is idempotent: a second Space in the same round changes nothing more. */
  lemma ServeOnce(s: World)
    ensures Commands(Commands(s, {KeySpace}), {KeySpace}) == Commands(s, {KeySpace})
  {
  }

  /**
   * `PongC_Update`: resolve collisions against the previous frame's boxes,
   * move the ball and rebuild its box, update both paddles and rebuild
   * their boxes, then apply the key commands.
   */
  function Ticked(s: World, input: Input, w: nat, h: nat): (r: World)
    ensures Consistent(s) ==> Consistent(r)
    ensures Consistent(s) && PaddlesPlaced(s) ==> PaddlesPlaced(r)
    ensures r.running == (s.running && KeyEscape !in input.keys)
    ensures KeySpace in input.keys ==> r.started
  {
    Commands(PaddlesAdvanced(BallAdvanced(CollisionsResolved(s, w, h)), input, w, h), input.keys)
  }

  // ---------------------------------------------------------------------
  // PongC_Run

  /**
   * One pass of the loop in `PongC_Run` while the game runs: a quit event
   * stops it before any simulation; otherwise the frame is simulated.
   */
  function Step(s: World, f: Frame): World {
    if f.quit then s.(running := false) else Ticked(s, f.input, f.w, f.h)
  }

  /**
   * The loop of `PongC_Run` over `frames`, passes rendering aside: each
   * frame is stepped while the game is still running, and once it has
   * stopped nothing changes any more.
   */
  function Run(s: World, frames: seq<Frame>): (r: World)
    ensures Consistent(s) ==> Consistent(r)
    ensures Consistent(s) && PaddlesPlaced(s) ==> PaddlesPlaced(r)
    ensures !s.running ==> r == s
    decreases |frames|
  {
    if frames == [] then s
    else
      var t := Run(s, frames[..|frames| - 1]);
      if t.running then Step(t, frames[|frames| - 1]) else t
  }

  /** Once the loop has stopped, the frames after that point are never simulated. */
  lemma {:induction false} StoppedStaysStopped(s: World, frames: seq<Frame>, k: nat)
    requires k <= |frames| && !Run(s, frames[..k]).running
    ensures Run(s, frames) == Run(s, frames[..k])
    decreases |frames|
  {
    if k < |frames| {
      var init := frames[..|frames| - 1];
      assert init[..k] == frames[..k];
      StoppedStaysStopped(s, init, k);
    } else {
      assert frames[..k] == frames;
    }
  }

  // ---------------------------------------------------------------------
  // PongC_Init

  /**
   * The flags after `PongC_Init`: those the scan set, with text turned off
   * when the font is missing (a degraded mode, not a failure).
   */
  function InitFlags(init: Flags, argv: seq<string>, b: Backend): (f: Flags)
    ensures var parsed := FlagsAfter(init, ScannedArgs(Args(argv)));
            f == parsed.(renderText := f.renderText)
            && (f.renderText <==> parsed.renderText && (b.font || HelpRequested(argv) || !b.sdl || !b.ttf))
  {
    var parsed := FlagsAfter(init, ScannedArgs(Args(argv)));
    if !HelpRequested(argv) && b.sdl && b.ttf && !b.font then parsed.(renderText := false) else parsed
  }

  /**
   * The globals after `PongC_Init`: the new flags, and a fresh round when
   * every backend call succeeded; on any other result only the flags changed.
   */
  function Initialized(s: World, argv: seq<string>, b: Backend, w: nat, h: nat): (r: World)
    ensures r.flags == InitFlags(s.flags, argv, b)
    ensures InitCode(HelpRequested(argv), b) == 0 ==> FreshRound(r, w, h)
    ensures InitCode(HelpRequested(argv), b) == 0 && Consistent(s) ==> Consistent(r) && PaddlesPlaced(r)
    ensures InitCode(HelpRequested(argv), b) != 0 ==> r == s.(flags := r.flags)
  {
    var t := s.(flags := InitFlags(s.flags, argv, b));
    if InitCode(HelpRequested(argv), b) == 0 then Reset(t, w, h) else t
  }
}
