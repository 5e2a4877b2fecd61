/** A bullet fired by the ship: a rectangle of the configured bullet size
    that spawns with its midtop on the ship's midtop, and a float y position
    that decreases by the bullet speed on every update and is copied into
    the rectangle. */
module MyBullets {
  import opened Geometry
  import opened GameSettings

  datatype BulletView = BulletView(rect: Rect, bulletY: real, color: Color)

  /** A rectangle of the given size with its top-left corner at (0, 0). */
  function RectangleAtOrigin(width: int, height: int): (r: Rect)
    ensures r.Left() == 0 && r.Top() == 0
    ensures r.Right() == width && r.Bottom() == height
  {
    Rect(0, 0, width, height)
  }

  /** The bullet as created above a ship whose rectangle is `shipRect`. */
  function Spawned(shipRect: Rect, width: int, height: int, color: Color): (v: BulletView)
    ensures v.rect.width == width && v.rect.height == height
    ensures v.rect.MidTop() == shipRect.MidTop()
    ensures v.bulletY == v.rect.y as real
    ensures v.color == color
  {
    var r := RectangleAtOrigin(width, height).WithMidTop(shipRect.MidTop());
    BulletView(r, r.y as real, color)
  }

  /** One update: the float position moves up by the bullet speed, and the
      rectangle's y becomes that position truncated. */
  function Stepped(v: BulletView, speed: real): BulletView
  {
    var y := v.bulletY - speed;
    v.(bulletY := y, rect := v.rect.(y := Truncate(y)))
  }

  /** The bullet after `n` updates. */
  function SteppedN(v: BulletView, speed: real, n: nat): BulletView
  {
    if n == 0 then v else Stepped(SteppedN(v, speed, n - 1), speed)
  }

  /** One update moves the float position by exactly the speed and changes
      nothing but the float position and the rectangle's y. */
  lemma StepMovesByExactlySpeed(v: BulletView, speed: real)
    ensures Stepped(v, speed).bulletY == v.bulletY - speed
    ensures Stepped(v, speed).rect.y == Truncate(Stepped(v, speed).bulletY)
    ensures Stepped(v, speed).rect.x == v.rect.x
    ensures Stepped(v, speed).rect.width == v.rect.width
    ensures Stepped(v, speed).rect.height == v.rect.height
    ensures Stepped(v, speed).color == v.color
  {
  }

  /** After n updates the float position is y0 - n * speed, the rectangle's
      y is that position truncated, and x, size and colour are as before. */
  lemma SteppedNClosedForm(v: BulletView, speed: real, n: nat)
    ensures SteppedN(v, speed, n).bulletY == v.bulletY - (n as real) * speed
    ensures n > 0 ==> SteppedN(v, speed, n).rect.y == Truncate(v.bulletY - (n as real) * speed)
    ensures SteppedN(v, speed, n).rect.x == v.rect.x
    ensures SteppedN(v, speed, n).rect.width == v.rect.width
    ensures SteppedN(v, speed, n).rect.height == v.rect.height
    ensures SteppedN(v, speed, n).color == v.color
  {
    SteppedNPosition(v, speed, n);
    SteppedNKeeps(v, speed, n);
  }

  lemma {:induction false} SteppedNPosition(v: BulletView, speed: real, n: nat)
    ensures SteppedN(v, speed, n).bulletY == v.bulletY - (n as real) * speed
  {
    SteppedNFollowsHeight(v, speed, n);
    HeightAfterClosedForm(v.bulletY, speed, n);
  }

  /** The float position after n updates, as repeated subtraction. */
  function HeightAfter(y: real, speed: real, n: nat): real
  {
    if n == 0 then y else HeightAfter(y, speed, n - 1) - speed
  }

  lemma {:induction false} SteppedNFollowsHeight(v: BulletView, speed: real, n: nat)
    ensures SteppedN(v, speed, n).bulletY == HeightAfter(v.bulletY, speed, n)
  {
    if n > 0 {
      SteppedNFollowsHeight(v, speed, n - 1);
    }
  }

  lemma {:induction false} HeightAfterClosedForm(y: real, speed: real, n: nat)
    ensures HeightAfter(y, speed, n) == y - (n as real) * speed
  {
    if n > 0 {
      HeightAfterClosedForm(y, speed, n - 1);
      ScaledSuccessor(n, speed);
    }
  }

  lemma {:induction false} SteppedNKeeps(v: BulletView, speed: real, n: nat)
    ensures n > 0 ==> SteppedN(v, speed, n).rect.y == Truncate(SteppedN(v, speed, n).bulletY)
    ensures SteppedN(v, speed, n).rect.x == v.rect.x
    ensures SteppedN(v, speed, n).rect.width == v.rect.width
    ensures SteppedN(v, speed, n).rect.height == v.rect.height
    ensures SteppedN(v, speed, n).color == v.color
  {
    if n > 0 {
      SteppedNKeeps(v, speed, n - 1);
      StepMovesByExactlySpeed(SteppedN(v, speed, n - 1), speed);
    }
  }

  lemma ScaledSuccessor(k: nat, s: real)
    requires k > 0
    ensures (k as real) * s == ((k - 1) as real) * s + s
  {
  }

  /** A bullet is off the screen once its bottom edge is at or above the
      screen's top edge. */
  predicate OffScreen(v: BulletView)
  {
    v.rect.Bottom() <= 0
  }

  /** A spawned bullet updated n > 0 times is off the screen exactly when its
      truncated position y0 - n * speed plus its height is at most 0. */
  lemma OffScreenAfterN(shipRect: Rect, width: int, height: int, color: Color, speed: real, n: nat)
    requires n > 0
    ensures var v := Spawned(shipRect, width, height, color);
            (OffScreen(SteppedN(v, speed, n))
             <==> Truncate(shipRect.y as real - (n as real) * speed) + height <= 0)
  {
    SteppedNClosedForm(Spawned(shipRect, width, height, color), speed, n);
  }

  class Bullet {
    const settings: Settings
    const bulletColor: Color
    var bulletRectangle: Rect
    var bulletY: real

    ghost function View(): BulletView
      reads this
    {
      BulletView(bulletRectangle, bulletY, bulletColor)
    }

    /** A bullet above the ship whose rectangle is `shipRectangle`, sized
        and coloured by the current settings. */
    constructor (settings: Settings, shipRectangle: Rect)
      ensures this.settings == settings
      ensures View() == Spawned(shipRectangle, settings.bulletWidth, settings.bulletHeight, settings.bulletColor)
    {
      this.settings := settings;
      bulletColor := settings.bulletColor;
      var r := Rect(0, 0, settings.bulletWidth, settings.bulletHeight);
      r := r.WithMidTop(shipRectangle.MidTop());
      bulletRectangle := r;
      bulletY := r.y as real;
    }

    /** A fresh rectangle at the origin, sized by the settings as they are
        now; the bullet itself is not touched. */
    function GetBulletRectangleAtOrigin(): (r: Rect)
      reads settings
      ensures r.Left() == 0 && r.Top() == 0
      ensures r.width == settings.bulletWidth && r.height == settings.bulletHeight
    {
      RectangleAtOrigin(settings.bulletWidth, settings.bulletHeight)
    }

    method Update()
      modifies this`bulletY, this`bulletRectangle
      ensures View() == Stepped(old(View()), settings.bulletSpeed)
    {
      bulletY := bulletY - settings.bulletSpeed;
      bulletRectangle := bulletRectangle.(y := Truncate(bulletY));
    }
  }
}
