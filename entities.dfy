/**
 * The ball and the two paddles ("players"), and the rectangles that stand
 * for them in collision tests.
 */
module Entities {
  import opened Geometry

  /** `PONGC_PLAYER_WIDTH` and `PONGC_PLAYER_HEIGHT`. */
  const PlayerWidth := 15
  const PlayerHeight := 150

  /** The radius a ball gets when a round is reset. */
  const BallRadius := 15

  /** The gap between a paddle and its side of the window. */
  const SideGap := 10

  datatype PlayerType = Human | Computer

  /** `PongC_Ball_t`: centre, direction on each axis, and a `uint32_t` radius. */
  datatype Ball = Ball(x: int, y: int, dirX: int, dirY: int, radius: nat)

  /** `PongC_Player_t`; `side` is -1 for the left paddle and 1 for the right one. */
  datatype Paddle = Paddle(x: int, y: int, width: int, height: int, side: int, kind: PlayerType, id: int)

  /**
   * The ball's hit box (`PongC_AssignBallCollision`): a square of side
   * 1.5 * radius whose corner is radius / 1.5 above and left of the centre,
   * so it holds the centre and, for the usual radius, spans [x-10, x+12.5].
   */
  function BallCollision(b: Ball): (r: Rect)
    ensures r.w == r.h == (b.radius as real) * 1.5
    ensures b.radius > 0 ==> Contains(r, b.x as real, b.y as real)
    ensures b.radius == BallRadius ==>
              r == Rect(b.x as real - 10.0, b.y as real - 10.0, 22.5, 22.5)
  {
    var offset := (b.radius as real) / 1.5;
    Rect(b.x as real - offset, b.y as real - offset, (b.radius as real) * 1.5, (b.radius as real) * 1.5)
  }

  /**
   * A paddle's hit box (`PongC_AssignPlayerCollision`): it covers exactly
   * the paddle's area and has an area exactly when the paddle does.
   */
  function PlayerCollision(p: Paddle): (r: Rect)
    ensures forall px: real, py: real :: Contains(r, px, py) <==>
              p.x as real <= px < (p.x + p.width) as real && p.y as real <= py < (p.y + p.height) as real
    ensures IsEmpty(r) <==> p.width <= 0 || p.height <= 0
  {
    Rect(p.x as real, p.y as real, p.width as real, p.height as real)
  }

  /**
   * The paddle `PongC_CreatePlayer` fills in, given the id it draws from the
   * global counter: standard size, `SideGap` away from its side of a window
   * `w` wide, and vertically centred in a window `h` high.
   */
  function NewPaddle(side: int, kind: PlayerType, id: int, w: int, h: nat): (p: Paddle)
    ensures p.width == PlayerWidth && p.height == PlayerHeight
    ensures p.side == side && p.kind == kind && p.id == id
    ensures side == -1 ==> p.x == SideGap
    ensures side != -1 ==> p.x + p.width + SideGap == w
    ensures p.y + p.height / 2 == h / 2
  {
    var x := if side == -1 then SideGap else w - PlayerWidth - SideGap;
    Paddle(x, h / 2 - PlayerHeight / 2, PlayerWidth, PlayerHeight, side, kind, id)
  }
}
