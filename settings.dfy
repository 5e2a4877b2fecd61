/** The game's configuration record. Properties the game can only read are
    constant fields; the five that have setters are mutable fields, each
    with a setter that changes that field alone. */
module GameSettings {
  import opened Geometry

  class Settings {
    var screenWidth: int
    var screenHeight: int
    /** Taken once, at construction, from the initial screen size. */
    const screenDimensions: (int, int)
    const backgroundColorChannelValue: int
    const backgroundColor: Color
    const shipSpeed: real
    const bulletSpeed: real
    var bulletWidth: int
    var bulletHeight: int
    const bulletColorChannelValue: int
    const bulletColor: Color
    const numberOfBulletsAllowed: int
    const alienSpeed: real
    const fleetDropSpeed: int
    /** 1 moves the fleet right, -1 moves it left. */
    var fleetHorizontalDirection: int

    ghost predicate Valid()
      reads this
    {
      fleetHorizontalDirection == 1 || fleetHorizontalDirection == -1
    }

    constructor ()
      ensures Valid()
      ensures screenWidth == 1200 && screenHeight == 800
      ensures screenDimensions == (1200, 800)
      ensures backgroundColorChannelValue == 0 && backgroundColor == Color(0, 0, 0)
      ensures backgroundColor.IsGrey()
      ensures shipSpeed == 1.5 && bulletSpeed == 1.0
      ensures bulletWidth == 4 && bulletHeight == 16
      ensures bulletColorChannelValue == 250 && bulletColor == Color(250, 250, 250)
      ensures bulletColor.IsGrey()
      ensures numberOfBulletsAllowed == 3
      ensures alienSpeed == 1.0 && fleetDropSpeed == 16
      ensures fleetHorizontalDirection == 1
    {
      screenWidth := 1200;
      screenHeight := 800;
      screenDimensions := (screenWidth, screenHeight);
      backgroundColorChannelValue := 0;
      backgroundColor := Color(backgroundColorChannelValue, backgroundColorChannelValue, backgroundColorChannelValue);
      shipSpeed := 1.5;
      bulletSpeed := 1.0;
      bulletWidth := 4;
      bulletHeight := 16;
      bulletColorChannelValue := 250;
      bulletColor := Color(bulletColorChannelValue, bulletColorChannelValue, bulletColorChannelValue);
      numberOfBulletsAllowed := 3;
      alienSpeed := 1.0;
      fleetDropSpeed := 16;
      fleetHorizontalDirection := 1;
    }

    method SetScreenWidth(width: int)
      modifies this`screenWidth
      ensures screenWidth == width
    {
      screenWidth := width;
    }

    method SetScreenHeight(height: int)
      modifies this`screenHeight
      ensures screenHeight == height
    {
      screenHeight := height;
    }

    method SetBulletWidth(newWidth: int)
      modifies this`bulletWidth
      ensures bulletWidth == newWidth
    {
      bulletWidth := newWidth;
    }

    method SetBulletHeight(newHeight: int)
      modifies this`bulletHeight
      ensures bulletHeight == newHeight
    {
      bulletHeight := newHeight;
    }

    /** The documented range of the direction is a precondition here; the
        setter itself stores whatever it is given. */
    method SetFleetHorizontalDirection(newFleetDirection: int)
      requires newFleetDirection == 1 || newFleetDirection == -1
      modifies this`fleetHorizontalDirection
      ensures fleetHorizontalDirection == newFleetDirection
      ensures Valid()
    {
      fleetHorizontalDirection := newFleetDirection;
    }
  }
}
