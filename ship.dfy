/** The player's ship: a rectangle sized by its image and anchored at the
    bottom centre of the screen, a float x position that accumulates
    sub-pixel movement, and two movement-intent flags. Movement toward an
    edge is refused once the rectangle has reached that edge; it is never
    clamped to the edge. */
module MyShip {
  import opened Geometry
  import opened GameSettings

  /** Everything about the ship that changes or that its update reads. */
  datatype ShipView = ShipView(rect: Rect, shipX: real, movingRight: bool, movingLeft: bool)

  /** The ship as constructed on a screen whose rectangle is `screen`,
      with an image of the given size. */
  function Initial(screen: Rect, imageWidth: int, imageHeight: int): (v: ShipView)
    ensures v.rect.MidBottom() == screen.MidBottom()
    ensures v.rect.width == imageWidth && v.rect.height == imageHeight
    ensures v.shipX == v.rect.x as real
    ensures !v.movingRight && !v.movingLeft
  {
    var r := Rect(0, 0, imageWidth, imageHeight).WithMidBottom(screen.MidBottom());
    ShipView(r, r.x as real, false, false)
  }

  predicate CanMoveRight(v: ShipView, screen: Rect)
  {
    v.movingRight && v.rect.Right() < screen.Right()
  }

  predicate CanMoveLeft(v: ShipView)
  {
    v.movingLeft && v.rect.Left() > 0
  }

  function MovedRight(v: ShipView, screen: Rect, speed: real): ShipView
  {
    if CanMoveRight(v, screen) then v.(shipX := v.shipX + speed) else v
  }

  function MovedLeft(v: ShipView, speed: real): ShipView
  {
    if CanMoveLeft(v) then v.(shipX := v.shipX - speed) else v
  }

  /** One frame of ship movement: try right, then left, then copy the
      float position into the rectangle. */
  function Updated(v: ShipView, screen: Rect, speed: real): ShipView
  {
    var w := MovedLeft(MovedRight(v, screen, speed), speed);
    w.(rect := w.rect.(x := Truncate(w.shipX)))
  }

  /** Both guards look at the rectangle as it was before the update, the
      float position moves by the speed once per passing guard, and only
      the rectangle's x is rewritten, once, from the new float position. */
  lemma UpdateMovement(v: ShipView, screen: Rect, speed: real)
    ensures Updated(v, screen, speed).shipX
         == v.shipX + (if CanMoveRight(v, screen) then speed else 0.0)
                    - (if CanMoveLeft(v) then speed else 0.0)
    ensures Updated(v, screen, speed).rect == v.rect.(x := Truncate(Updated(v, screen, speed).shipX))
    ensures Updated(v, screen, speed).movingRight == v.movingRight
    ensures Updated(v, screen, speed).movingLeft == v.movingLeft
  {
  }

  /** The float position moves right by exactly the speed precisely when
      the right flag is set, the right guard passes and the left one does
      not; symmetrically for left. */
  lemma MovesRightExactlyWhen(v: ShipView, screen: Rect, speed: real)
    requires speed > 0.0
    ensures Updated(v, screen, speed).shipX == v.shipX + speed
        <==> (v.movingRight && v.rect.Right() < screen.Right() && !CanMoveLeft(v))
    ensures Updated(v, screen, speed).shipX == v.shipX - speed
        <==> (v.movingLeft && v.rect.Left() > 0 && !CanMoveRight(v, screen))
  {
    UpdateMovement(v, screen, speed);
  }

  /** With both flags set and both guards passing, the moves cancel. */
  lemma BothDirectionsCancel(v: ShipView, screen: Rect, speed: real)
    requires CanMoveRight(v, screen) && CanMoveLeft(v)
    ensures Updated(v, screen, speed).shipX == v.shipX
  {
  }

  /** The rectangle's x is always the truncated float position. */
  predicate Coherent(v: ShipView)
  {
    v.rect.x == Truncate(v.shipX)
  }

  /** A ship whose left edge has reached the screen's left edge never moves
      further left; it may still move right. */
  lemma NeverPastLeftEdge(v: ShipView, screen: Rect, speed: real)
    requires Coherent(v) && speed >= 0.0
    requires v.rect.Left() <= 0
    ensures Updated(v, screen, speed).shipX >= v.shipX
    ensures Updated(v, screen, speed).rect.Left() >= v.rect.Left()
  {
    var u := Updated(v, screen, speed);
    UpdateMovement(v, screen, speed);
    TruncateMonotone(v.shipX, u.shipX);
  }

  /** A ship whose right edge has reached the screen's right edge never
      moves further right; it may still move left. */
  lemma NeverPastRightEdge(v: ShipView, screen: Rect, speed: real)
    requires Coherent(v) && speed >= 0.0
    requires v.rect.Right() >= screen.Right()
    ensures Updated(v, screen, speed).shipX <= v.shipX
    ensures Updated(v, screen, speed).rect.Right() <= v.rect.Right()
  {
    var u := Updated(v, screen, speed);
    UpdateMovement(v, screen, speed);
    TruncateMonotone(u.shipX, v.shipX);
  }

  /** The envelope the ship stays in. Because movement is refused rather
      than clamped, a ship one step short of an edge may overshoot it by
      less than one step of the float position. */
  predicate InBounds(v: ShipView, screen: Rect, speed: real)
  {
    && Coherent(v)
    && 0 <= v.rect.width <= screen.Right()
    && (v.shipX >= 0.0 || v.shipX >= 1.0 - speed)
    && v.shipX < (screen.Right() - v.rect.width) as real + speed
  }

  lemma InitialInBounds(screenWidth: int, screenHeight: int, imageWidth: int, imageHeight: int, speed: real)
    requires 0 <= imageWidth <= screenWidth && speed > 0.0
    ensures InBounds(Initial(Rect(0, 0, screenWidth, screenHeight), imageWidth, imageHeight),
                     Rect(0, 0, screenWidth, screenHeight), speed)
  {
    var v := Initial(Rect(0, 0, screenWidth, screenHeight), imageWidth, imageHeight);
    TruncateOfInteger(v.rect.x);
    assert v.rect.x == Half(screenWidth) - Half(imageWidth);
  }

  lemma {:induction false} UpdatePreservesBounds(v: ShipView, screen: Rect, speed: real)
    requires speed > 0.0 && InBounds(v, screen, speed)
    ensures InBounds(Updated(v, screen, speed), screen, speed)
  {
    var u := Updated(v, screen, speed);
    UpdateMovement(v, screen, speed);
    if CanMoveRight(v, screen) {
      assert v.shipX < (screen.Right() - v.rect.width) as real;
    }
    if CanMoveLeft(v) {
      assert v.shipX >= 1.0;
    }
  }

  /** Changing a movement flag keeps the ship in its envelope. */
  lemma FlagsPreserveBounds(v: ShipView, screen: Rect, speed: real, right: bool, left: bool)
    requires InBounds(v, screen, speed)
    ensures InBounds(v.(movingRight := right, movingLeft := left), screen, speed)
  {
  }

  /** In the envelope, with a step shorter than two pixels, the rectangle
      never leaves the screen on the left and ends less than one step
      beyond it on the right. */
  lemma InBoundsEdges(v: ShipView, screen: Rect, speed: real)
    requires 0.0 < speed < 2.0 && InBounds(v, screen, speed)
    ensures v.rect.Left() >= 0
    ensures (v.rect.Right() as real) < screen.Right() as real + speed
  {
  }

  class Ship {
    const settings: Settings
    const screenRectangle: Rect
    const shipImageFilePath: string
    var shipRectangle: Rect
    var shipX: real
    var movingRight: bool
    var movingLeft: bool

    ghost function View(): ShipView
      reads this
    {
      ShipView(shipRectangle, shipX, movingRight, movingLeft)
    }

    /** The image's size is given; loading the image is not modelled. */
    constructor (settings: Settings, screenRectangle: Rect, imageWidth: int, imageHeight: int)
      ensures this.settings == settings && this.screenRectangle == screenRectangle
      ensures View() == Initial(screenRectangle, imageWidth, imageHeight)
    {
      this.settings := settings;
      this.screenRectangle := screenRectangle;
      shipImageFilePath := "images/ship_resized.png";
      var r := Rect(0, 0, imageWidth, imageHeight);
      r := r.WithMidBottom(screenRectangle.MidBottom());
      shipRectangle := r;
      shipX := r.x as real;
      movingRight := false;
      movingLeft := false;
    }

    method SetMovingRight(flag: bool)
      modifies this`movingRight
      ensures View() == old(View()).(movingRight := flag)
    {
      movingRight := flag;
    }

    method SetMovingLeft(flag: bool)
      modifies this`movingLeft
      ensures View() == old(View()).(movingLeft := flag)
    {
      movingLeft := flag;
    }

    method MoveShipRight()
      modifies this`shipX
      ensures View() == MovedRight(old(View()), screenRectangle, settings.shipSpeed)
    {
      if movingRight && shipRectangle.Right() < screenRectangle.Right() {
        shipX := shipX + settings.shipSpeed;
      }
    }

    method MoveShipLeft()
      modifies this`shipX
      ensures View() == MovedLeft(old(View()), settings.shipSpeed)
    {
      if movingLeft && shipRectangle.Left() > 0 {
        shipX := shipX - settings.shipSpeed;
      }
    }

    method Update()
      modifies this`shipX, this`shipRectangle
      ensures View() == Updated(old(View()), screenRectangle, settings.shipSpeed)
    {
      MoveShipRight();
      MoveShipLeft();
      shipRectangle := shipRectangle.(x := Truncate(shipX));
    }
  }
}
