/** The game: it owns the settings, the ship and the pool of live bullets,
    and runs frames. A frame handles the pending input events, moves the
    ship, updates every bullet and drops the ones that have left the top of
    the screen, and draws. Quitting ends the process, modelled as a
    `terminated` flag after which nothing more happens. */
module MyAlienInvasion {
  import opened Geometry
  import opened GameSettings
  import opened MyShip
  import opened MyBullets

  datatype Key = RightArrow | LeftArrow | KeyQ | Space | OtherKey(code: int)

  datatype Event = Quit | KeyDown(key: Key) | KeyUp(key: Key) | OtherEvent

  /** One drawing operation of a rendered frame. */
  datatype DrawOp = Fill(color: Color) | Blit(rect: Rect) | DrawRect(color: Color, rect: Rect)

  /** The settings a frame reads, and the screen's rectangle. */
  datatype Config = Config(screen: Rect, shipSpeed: real, bulletSpeed: real,
                           bulletWidth: int, bulletHeight: int, bulletColor: Color, cap: int)

  /** Everything a frame can change. */
  datatype GameView = GameView(terminated: bool, ship: ShipView, bullets: seq<BulletView>)

  // ---------------------------------------------------------------------
  // The game as a function of its state

  function InitialGame(c: Config, imageWidth: int, imageHeight: int): GameView
  {
    GameView(false, Initial(c.screen, imageWidth, imageHeight), [])
  }

  /** Firing adds a bullet above the ship unless the pool is full. */
  function Fire(g: GameView, c: Config): GameView
  {
    if |g.bullets| < c.cap then
      g.(bullets := g.bullets + [Spawned(g.ship.rect, c.bulletWidth, c.bulletHeight, c.bulletColor)])
    else
      g
  }

  function KeyPressed(g: GameView, key: Key, c: Config): GameView
  {
    match key
    case RightArrow => g.(ship := g.ship.(movingRight := true))
    case LeftArrow => g.(ship := g.ship.(movingLeft := true))
    case KeyQ => g.(terminated := true)
    case Space => Fire(g, c)
    case OtherKey(_) => g
  }

  function KeyReleased(g: GameView, key: Key): GameView
  {
    match key
    case RightArrow => g.(ship := g.ship.(movingRight := false))
    case LeftArrow => g.(ship := g.ship.(movingLeft := false))
    case _ => g
  }

  function HandleEvent(g: GameView, e: Event, c: Config): GameView
  {
    match e
    case Quit => g.(terminated := true)
    case KeyDown(k) => KeyPressed(g, k, c)
    case KeyUp(k) => KeyReleased(g, k)
    case OtherEvent => g
  }

  /** Events are handled in order until one of them ends the process. */
  function HandleEvents(g: GameView, events: seq<Event>, c: Config): GameView
    decreases |events|
  {
    if g.terminated || events == [] then g
    else HandleEvents(HandleEvent(g, events[0], c), events[1..], c)
  }

  /** The bullets that are still on the screen, in their order. */
  function KeepOnScreen(s: seq<BulletView>): (r: seq<BulletView>)
    ensures |r| <= |s|
    ensures forall b :: b in r ==> b in s && !OffScreen(b)
    ensures forall b :: b in s && !OffScreen(b) ==> b in r
  {
    if s == [] then []
    else
      var last := s[|s| - 1];
      KeepOnScreen(s[..|s| - 1]) + (if OffScreen(last) then [] else [last])
  }

  function StepAll(s: seq<BulletView>, speed: real): seq<BulletView>
  {
    seq(|s|, i requires 0 <= i < |s| => Stepped(s[i], speed))
  }

  /** The per-frame sweep: update every bullet, then drop those off the
      screen, judged by their updated positions. */
  function Sweep(s: seq<BulletView>, speed: real): seq<BulletView>
  {
    KeepOnScreen(StepAll(s, speed))
  }

  /** One frame: events, then the ship, then the bullets; drawing changes
      no state. A frame that ends the process stops after its events. */
  function AdvanceFrame(g: GameView, events: seq<Event>, c: Config): GameView
  {
    if g.terminated then g
    else
      var h := HandleEvents(g, events, c);
      if h.terminated then h
      else
        var moved := h.(ship := Updated(h.ship, c.screen, c.shipSpeed));
        moved.(bullets := Sweep(moved.bullets, c.bulletSpeed))
  }

  function Run(g: GameView, frames: seq<seq<Event>>, c: Config): GameView
    decreases |frames|
  {
    if frames == [] then g else Run(AdvanceFrame(g, frames[0], c), frames[1..], c)
  }

  // ---------------------------------------------------------------------
  // Properties of one operation

  /** Below the cap, firing appends exactly one bullet, bullet-sized and
      with its midtop on the ship's midtop; at the cap nothing changes. */
  lemma FireAddsExactlyOne(g: GameView, c: Config)
    ensures Fire(g, c).ship == g.ship && Fire(g, c).terminated == g.terminated
    ensures |g.bullets| < c.cap ==>
              && |Fire(g, c).bullets| == |g.bullets| + 1
              && Fire(g, c).bullets[..|g.bullets|] == g.bullets
              && Fire(g, c).bullets[|g.bullets|].rect.MidTop() == g.ship.rect.MidTop()
              && Fire(g, c).bullets[|g.bullets|].rect.width == c.bulletWidth
              && Fire(g, c).bullets[|g.bullets|].rect.height == c.bulletHeight
    ensures |g.bullets| >= c.cap ==> Fire(g, c) == g
  {
    if |g.bullets| < c.cap {
      assert (g.bullets + [Spawned(g.ship.rect, c.bulletWidth, c.bulletHeight, c.bulletColor)])[..|g.bullets|] == g.bullets;
    }
  }

  /** Pressing an arrow key sets only its own flag, Q ends the process,
      Space fires, and any other key changes nothing. */
  lemma KeyDownEffects(g: GameView, key: Key, c: Config)
    ensures key == RightArrow ==>
              KeyPressed(g, key, c).ship.movingRight
              && KeyPressed(g, key, c).ship.(movingRight := g.ship.movingRight) == g.ship
              && KeyPressed(g, key, c).bullets == g.bullets
              && KeyPressed(g, key, c).terminated == g.terminated
    ensures key == LeftArrow ==>
              KeyPressed(g, key, c).ship.movingLeft
              && KeyPressed(g, key, c).ship.(movingLeft := g.ship.movingLeft) == g.ship
              && KeyPressed(g, key, c).bullets == g.bullets
              && KeyPressed(g, key, c).terminated == g.terminated
    ensures key == KeyQ ==> KeyPressed(g, key, c).terminated
                            && KeyPressed(g, key, c).(terminated := g.terminated) == g
    ensures key == Space ==> KeyPressed(g, key, c) == Fire(g, c)
    ensures key.OtherKey? ==> KeyPressed(g, key, c) == g
  {
  }

  /** Releasing an arrow key clears only its own flag; releasing any other
      key changes nothing. */
  lemma KeyUpEffects(g: GameView, key: Key)
    ensures key == RightArrow ==>
              !KeyReleased(g, key).ship.movingRight
              && KeyReleased(g, key).(ship := KeyReleased(g, key).ship.(movingRight := g.ship.movingRight)) == g
    ensures key == LeftArrow ==>
              !KeyReleased(g, key).ship.movingLeft
              && KeyReleased(g, key).(ship := KeyReleased(g, key).ship.(movingLeft := g.ship.movingLeft)) == g
    ensures key != RightArrow && key != LeftArrow ==> KeyReleased(g, key) == g
  {
  }

  /** Releasing an arrow key undoes pressing it, for a ship that was not
      already moving that way. */
  lemma ReleaseUndoesPress(g: GameView, key: Key, c: Config)
    requires key == RightArrow || key == LeftArrow
    requires key == RightArrow ==> !g.ship.movingRight
    requires key == LeftArrow ==> !g.ship.movingLeft
    ensures KeyReleased(KeyPressed(g, key, c), key) == g
  {
  }

  /** Lemma-level view of the sweep: a bullet survives exactly when its
      updated bottom edge is still below the top of the screen, and every
      survivor is some old bullet after one update. */
  lemma SweepKeepsExactlyOnScreen(s: seq<BulletView>, speed: real)
    ensures |Sweep(s, speed)| <= |s|
    ensures forall i :: 0 <= i < |s| ==>
              (Stepped(s[i], speed) in Sweep(s, speed) <==> !OffScreen(Stepped(s[i], speed)))
    ensures forall b :: b in Sweep(s, speed) ==>
              !OffScreen(b) && exists i :: 0 <= i < |s| && b == Stepped(s[i], speed)
  {
    var t := StepAll(s, speed);
    forall i | 0 <= i < |s|
      ensures Stepped(s[i], speed) in t
    {
      assert t[i] == Stepped(s[i], speed);
    }
    forall b | b in Sweep(s, speed)
      ensures exists i :: 0 <= i < |s| && b == Stepped(s[i], speed)
    {
      assert b in t;
      var i :| 0 <= i < |t| && t[i] == b;
    }
  }

  /** The sweep keeps every bullet still on the screen as many times as it
      occurs, and no off-screen one: bullets with equal values, such as
      several fired in one frame, survive or go together. */
  lemma {:induction false} KeepOnScreenCounts(s: seq<BulletView>)
    ensures forall b :: multiset(KeepOnScreen(s))[b] == if OffScreen(b) then 0 else multiset(s)[b]
  {
    if s != [] {
      var init := s[..|s| - 1];
      var last := s[|s| - 1];
      SplitLast(s);
      KeepOnScreenCounts(init);
      assert multiset(s) == multiset(init) + multiset{last};
      assert KeepOnScreen(s) == KeepOnScreen(init) + (if OffScreen(last) then [] else [last]);
    }
  }

  /** The same count for a whole sweep: every updated bullet that is still
      on the screen survives with its multiplicity. */
  lemma SweepCounts(s: seq<BulletView>, speed: real)
    ensures |Sweep(s, speed)| <= |s|
    ensures forall b :: multiset(Sweep(s, speed))[b] ==
              if OffScreen(b) then 0 else multiset(StepAll(s, speed))[b]
  {
    KeepOnScreenCounts(StepAll(s, speed));
  }

  /** When every bullet is still on the screen, the filter keeps them all,
      in order and with their repetitions. */
  lemma {:induction false} KeepOnScreenAll(s: seq<BulletView>)
    requires forall i :: 0 <= i < |s| ==> !OffScreen(s[i])
    ensures KeepOnScreen(s) == s
  {
    if s != [] {
      var init := s[..|s| - 1];
      var last := s[|s| - 1];
      SplitLast(s);
      assert !OffScreen(last);
      assert forall i :: 0 <= i < |init| ==> init[i] == s[i];
      KeepOnScreenAll(init);
      assert KeepOnScreen(s) == KeepOnScreen(init) + [last];
    }
  }

  lemma SplitLast<T>(s: seq<T>)
    requires s != []
    ensures s == s[..|s| - 1] + [s[|s| - 1]]
  {
  }

  /** Once the process has ended, frames change nothing. */
  lemma {:induction false} RunAfterTermination(g: GameView, frames: seq<seq<Event>>, c: Config)
    requires g.terminated
    ensures Run(g, frames, c) == g
    decreases |frames|
  {
    if frames != [] {
      RunAfterTermination(AdvanceFrame(g, frames[0], c), frames[1..], c);
    }
  }

  /** A quit event ends the process at once: the events after it in the
      same frame are not handled, and the ship and bullets do not move. */
  lemma QuitDiscardsTheRest(g: GameView, rest: seq<Event>, c: Config)
    requires !g.terminated
    ensures HandleEvents(g, [Quit] + rest, c) == g.(terminated := true)
    ensures HandleEvents(g, [KeyDown(KeyQ)] + rest, c) == g.(terminated := true)
    ensures AdvanceFrame(g, [Quit] + rest, c) == g.(terminated := true)
    ensures AdvanceFrame(g, [KeyDown(KeyQ)] + rest, c) == g.(terminated := true)
  {
    assert ([Quit] + rest)[1..] == rest;
    assert ([KeyDown(KeyQ)] + rest)[1..] == rest;
  }

  /** Events come before the ship's update: a right-arrow press moves a
      ship that is clear of the right edge in the same frame. */
  lemma PressMovesInTheSameFrame(g: GameView, c: Config)
    requires !g.terminated && !g.ship.movingLeft
    requires g.ship.rect.Right() < c.screen.Right()
    ensures AdvanceFrame(g, [KeyDown(RightArrow)], c).ship.shipX == g.ship.shipX + c.shipSpeed
  {
    var h := HandleEvents(g, [KeyDown(RightArrow)], c);
    assert h == g.(ship := g.ship.(movingRight := true));
    UpdateMovement(h.ship, c.screen, c.shipSpeed);
  }

  /** The bullets at the end of an uninterrupted frame are the sweep of the
      bullets after its events; the ship's update does not touch them. */
  lemma FrameBullets(g: GameView, events: seq<Event>, c: Config)
    requires !g.terminated && !HandleEvents(g, events, c).terminated
    ensures AdvanceFrame(g, events, c).bullets == Sweep(HandleEvents(g, events, c).bullets, c.bulletSpeed)
  {
  }

  /** Pressing fire once, with room in the pool, fires exactly once. */
  lemma SingleShot(g: GameView, c: Config)
    requires !g.terminated && |g.bullets| < c.cap
    ensures HandleEvents(g, [KeyDown(Space)], c)
         == g.(bullets := g.bullets + [Spawned(g.ship.rect, c.bulletWidth, c.bulletHeight, c.bulletColor)])
  {
    assert [KeyDown(Space)][1..] == [];
  }

  /** A lone bullet that is still on the screen after its update is kept. */
  lemma SweepSingle(b: BulletView, speed: real)
    requires !OffScreen(Stepped(b, speed))
    ensures Sweep([b], speed) == [Stepped(b, speed)]
  {
    assert StepAll([b], speed) == [Stepped(b, speed)];
    assert [Stepped(b, speed)][..0] == [];
  }

  /** The bullet sweep comes after the events: a bullet fired in a frame is
      already moved up once by the end of that frame. */
  lemma FiredBulletMovesInTheSameFrame(g: GameView, c: Config)
    requires !g.terminated && g.bullets == [] && c.cap > 0
    requires Truncate(g.ship.rect.y as real - c.bulletSpeed) + c.bulletHeight > 0
    ensures var r := AdvanceFrame(g, [KeyDown(Space)], c);
            |r.bullets| == 1 && r.bullets[0].bulletY == g.ship.rect.y as real - c.bulletSpeed
  {
    var b := Spawned(g.ship.rect, c.bulletWidth, c.bulletHeight, c.bulletColor);
    SingleShot(g, c);
    assert b.bulletY == g.ship.rect.y as real;
    SweepSingle(b, c.bulletSpeed);
    FrameBullets(g, [KeyDown(Space)], c);
  }

  /** Pressing fire four times in one frame, with the default cap of three
      and an empty pool, leaves exactly three bullets. */
  lemma FourShotsWithCapThree(g: GameView, c: Config)
    requires !g.terminated && g.bullets == [] && c.cap == 3
    ensures |HandleEvents(g, [KeyDown(Space), KeyDown(Space), KeyDown(Space), KeyDown(Space)], c).bullets| == 3
  {
    var shot := [KeyDown(Space)];
    var g1 := Fire(g, c);
    var g2 := Fire(g1, c);
    var g3 := Fire(g2, c);
    assert Fire(g3, c) == g3;
    assert [KeyDown(Space), KeyDown(Space), KeyDown(Space), KeyDown(Space)][1..] == shot + shot + shot;
    assert (shot + shot + shot)[1..] == shot + shot;
    assert (shot + shot)[1..] == shot;
  }

  // ---------------------------------------------------------------------
  // The invariant every frame keeps

  /** At most `cap` live bullets, the ship in its envelope, and every
      rectangle consistent with its float position. */
  predicate Invariant(g: GameView, c: Config)
  {
    && |g.bullets| <= c.cap
    && InBounds(g.ship, c.screen, c.shipSpeed)
    && forall b :: b in g.bullets ==> b.rect.y == Truncate(b.bulletY)
  }

  lemma InitialGameInvariant(c: Config, imageWidth: int, imageHeight: int)
    requires c.screen.x == 0 && c.screen.y == 0 && c.cap >= 0
    requires 0 <= imageWidth <= c.screen.width && c.shipSpeed > 0.0
    ensures Invariant(InitialGame(c, imageWidth, imageHeight), c)
  {
    InitialInBounds(c.screen.width, c.screen.height, imageWidth, imageHeight, c.shipSpeed);
  }

  lemma HandleEventPreservesInvariant(g: GameView, e: Event, c: Config)
    requires Invariant(g, c)
    ensures Invariant(HandleEvent(g, e, c), c)
  {
    var b := Spawned(g.ship.rect, c.bulletWidth, c.bulletHeight, c.bulletColor);
    TruncateOfInteger(b.rect.y);
    match e
    case KeyDown(k) =>
      FlagsPreserveBounds(g.ship, c.screen, c.shipSpeed, true, g.ship.movingLeft);
      FlagsPreserveBounds(g.ship, c.screen, c.shipSpeed, g.ship.movingRight, true);
    case KeyUp(k) =>
      FlagsPreserveBounds(g.ship, c.screen, c.shipSpeed, false, g.ship.movingLeft);
      FlagsPreserveBounds(g.ship, c.screen, c.shipSpeed, g.ship.movingRight, false);
    case _ =>
  }

  lemma {:induction false} HandleEventsPreservesInvariant(g: GameView, events: seq<Event>, c: Config)
    requires Invariant(g, c)
    ensures Invariant(HandleEvents(g, events, c), c)
    decreases |events|
  {
    if !g.terminated && events != [] {
      HandleEventPreservesInvariant(g, events[0], c);
      HandleEventsPreservesInvariant(HandleEvent(g, events[0], c), events[1..], c);
    }
  }

  lemma SweepPreservesConsistency(s: seq<BulletView>, speed: real)
    ensures forall b :: b in Sweep(s, speed) ==> b.rect.y == Truncate(b.bulletY)
  {
    SweepKeepsExactlyOnScreen(s, speed);
  }

  lemma FramePreservesInvariant(g: GameView, events: seq<Event>, c: Config)
    requires c.shipSpeed > 0.0 && Invariant(g, c)
    ensures Invariant(AdvanceFrame(g, events, c), c)
  {
    if !g.terminated {
      var h := HandleEvents(g, events, c);
      HandleEventsPreservesInvariant(g, events, c);
      if !h.terminated {
        UpdatePreservesBounds(h.ship, c.screen, c.shipSpeed);
        SweepKeepsExactlyOnScreen(h.bullets, c.bulletSpeed);
        SweepPreservesConsistency(h.bullets, c.bulletSpeed);
      }
    }
  }

  lemma {:induction false} RunPreservesInvariant(g: GameView, frames: seq<seq<Event>>, c: Config)
    requires c.shipSpeed > 0.0 && Invariant(g, c)
    ensures Invariant(Run(g, frames, c), c)
    decreases |frames|
  {
    if frames != [] {
      FramePreservesInvariant(g, frames[0], c);
      RunPreservesInvariant(AdvanceFrame(g, frames[0], c), frames[1..], c);
    }
  }

  /** From a freshly constructed game, whatever the input, the pool never
      holds more than `cap` bullets, and, for a ship speed under two pixels
      per frame, the ship never leaves the screen on the left and ends less
      than one step beyond its right edge. */
  /** The one-step allowance on the right is reached: on a 10-pixel-wide
      screen, a 6-pixel-wide ship at speed 1.5 that is pressed right in one
      frame and left alone in the next ends with its right edge at 11. */
  lemma RightEdgeOvershootReachable(c: Config)
    requires c.screen == Rect(0, 0, 10, 10) && c.shipSpeed == 1.5
    ensures var g := Run(InitialGame(c, 6, 6), [[KeyDown(RightArrow)], []], c);
            && g.ship.shipX == 5.0
            && g.ship.rect.Right() == 11 > c.screen.Right()
            && InBounds(g.ship, c.screen, c.shipSpeed)
  {
    var g0 := InitialGame(c, 6, 6);
    assert g0.ship.rect.x == 2 && g0.ship.shipX == 2.0;
    var g1 := AdvanceFrame(g0, [KeyDown(RightArrow)], c);
    assert HandleEvents(g0, [KeyDown(RightArrow)], c) == g0.(ship := g0.ship.(movingRight := true));
    assert g1.ship.shipX == 3.5 && g1.ship.rect.x == 3 && g1.ship.movingRight;
    var g2 := AdvanceFrame(g1, [], c);
    assert g2.ship.shipX == 5.0 && g2.ship.rect.x == 5;
    assert [[KeyDown(RightArrow)], []][1..] == [[]];
    assert Run(g0, [[KeyDown(RightArrow)], []], c) == Run(g1, [[]], c);
    assert Run(g1, [[]], c) == Run(g2, [], c);
  }

  lemma PoolAndShipStayBounded(c: Config, imageWidth: int, imageHeight: int, frames: seq<seq<Event>>)
    requires c.screen.x == 0 && c.screen.y == 0 && c.cap >= 0
    requires 0 <= imageWidth <= c.screen.width && 0.0 < c.shipSpeed < 2.0
    ensures |Run(InitialGame(c, imageWidth, imageHeight), frames, c).bullets| <= c.cap
    ensures Run(InitialGame(c, imageWidth, imageHeight), frames, c).ship.rect.Left() >= 0
    ensures (Run(InitialGame(c, imageWidth, imageHeight), frames, c).ship.rect.Right() as real)
            < c.screen.Right() as real + c.shipSpeed
  {
    var g := InitialGame(c, imageWidth, imageHeight);
    InitialGameInvariant(c, imageWidth, imageHeight);
    RunPreservesInvariant(g, frames, c);
    InBoundsEdges(Run(g, frames, c).ship, c.screen, c.shipSpeed);
  }

  // ---------------------------------------------------------------------
  // Sequences of bullet objects

  ghost function Views(s: seq<Bullet>): (r: seq<BulletView>)
    reads s
    ensures |r| == |s|
  {
    if s == [] then [] else Views(s[..|s| - 1]) + [s[|s| - 1].View()]
  }

  /** The views are the bullets' own views, index by index. */
  lemma {:induction false} ViewsAt(s: seq<Bullet>)
    ensures |Views(s)| == |s|
    ensures forall i :: 0 <= i < |s| ==> Views(s)[i] == s[i].View()
  {
    if s != [] {
      ViewsAt(s[..|s| - 1]);
    }
  }

  /** The bullets whose rectangle's bottom edge is below the screen's top. */
  function KeepObjects(s: seq<Bullet>): seq<Bullet>
    reads s
  {
    if s == [] then []
    else
      var last := s[|s| - 1];
      KeepObjects(s[..|s| - 1]) + (if last.bulletRectangle.Bottom() <= 0 then [] else [last])
  }

  /** The kept objects are some of the pool's, and no more of them. */
  lemma {:induction false} KeepObjectsShrinks(s: seq<Bullet>)
    ensures |KeepObjects(s)| <= |s|
    ensures forall b :: b in KeepObjects(s) ==> b in s
  {
    if s != [] {
      var init := s[..|s| - 1];
      SplitLast(s);
      KeepObjectsShrinks(init);
    }
  }

  /** Object by object, a bullet of the pool stays exactly when its
      rectangle's bottom edge is below the screen's top. */
  lemma {:induction false} KeepObjectsExactlyOnScreen(s: seq<Bullet>)
    ensures forall b :: b in s ==> (b in KeepObjects(s) <==> b.bulletRectangle.Bottom() > 0)
  {
    if s != [] {
      var init := s[..|s| - 1];
      var last := s[|s| - 1];
      SplitLast(s);
      KeepObjectsExactlyOnScreen(init);
      KeepObjectsShrinks(init);
      assert KeepObjects(s) == KeepObjects(init) + (if last.bulletRectangle.Bottom() <= 0 then [] else [last]);
    }
  }

  /** The sequence with every occurrence of x removed. */
  function Without<T(==)>(s: seq<T>, x: T): seq<T>
  {
    if s == [] then [] else (if s[0] == x then [] else [s[0]]) + Without(s[1..], x)
  }

  lemma {:induction false} WithoutAbsent<T>(s: seq<T>, x: T)
    requires x !in s
    ensures Without(s, x) == s
  {
    if s != [] {
      WithoutAbsent(s[1..], x);
    }
  }

  lemma {:induction false} WithoutConcat<T>(a: seq<T>, b: seq<T>, x: T)
    ensures Without(a + b, x) == Without(a, x) + Without(b, x)
  {
    if a != [] {
      assert (a + b)[1..] == a[1..] + b;
      WithoutConcat(a[1..], b, x);
    } else {
      assert a + b == b;
    }
  }

  /** Removing the j-th element of a sequence without repetitions from a
      sequence made of a subset of its first j elements followed by its
      elements from j on leaves the subset followed by the elements after j. */
  lemma DistinctExcludes<T>(s: seq<T>, j: nat)
    requires Distinct(s) && j < |s|
    ensures s[j] !in s[..j] && s[j] !in s[j + 1..]
  {
    forall k | 0 <= k < j ensures s[k] != s[j] {
    }
    forall k | j < k < |s| ensures s[k] != s[j] {
    }
  }

  /** Removing x from a sequence in which it occurs once, between `before`
      and `after`, leaves `before` followed by `after`. */
  lemma WithoutSingle<T>(before: seq<T>, x: T, after: seq<T>)
    requires x !in before && x !in after
    ensures Without(before + ([x] + after), x) == before + after
  {
    WithoutConcat(before, [x] + after, x);
    WithoutAbsent(before, x);
    assert ([x] + after)[1..] == after;
    WithoutAbsent(after, x);
    assert Without([x] + after, x) == after;
  }

  /** The pool during the removal loop, after the first j bullets of the
      snapshot have been looked at. */
  function Pending(copy: seq<Bullet>, j: nat): seq<Bullet>
    requires j <= |copy|
    reads copy
  {
    KeepObjects(copy[..j]) + copy[j..]
  }

  lemma PendingAtStart(copy: seq<Bullet>)
    ensures Pending(copy, 0) == copy
  {
    assert copy[..0] == [];
  }

  lemma PendingAtEnd(copy: seq<Bullet>)
    ensures Pending(copy, |copy|) == KeepObjects(copy)
  {
    assert copy[..|copy|] == copy;
  }

  /** One iteration of the removal loop keeps the pool equal to the kept
      part of the snapshot's prefix followed by the rest of the snapshot:
      an off-screen bullet is removed from the pool ... */
  lemma RemovalStepDrop(copy: seq<Bullet>, j: nat)
    requires Distinct(copy) && j < |copy|
    requires copy[j].bulletRectangle.Bottom() <= 0
    ensures Without(Pending(copy, j), copy[j]) == Pending(copy, j + 1)
  {
    var kept := KeepObjects(copy[..j]);
    assert KeepObjects(copy[..j + 1]) == kept by {
      assert copy[..j + 1][..j] == copy[..j];
    }
    DistinctExcludes(copy, j);
    KeepObjectsShrinks(copy[..j]);
    assert copy[j] !in kept;
    assert copy[j..] == [copy[j]] + copy[j + 1..];
    WithoutSingle(kept, copy[j], copy[j + 1..]);
  }

  /** ... and an on-screen bullet stays. */
  lemma RemovalStepKeep(copy: seq<Bullet>, j: nat)
    requires j < |copy|
    requires copy[j].bulletRectangle.Bottom() > 0
    ensures Pending(copy, j) == Pending(copy, j + 1)
  {
    var kept := KeepObjects(copy[..j]);
    assert KeepObjects(copy[..j + 1]) == kept + [copy[j]] by {
      assert copy[..j + 1][..j] == copy[..j];
    }
    assert copy[j..] == [copy[j]] + copy[j + 1..];
  }

  lemma {:induction false} ViewsConcat(a: seq<Bullet>, b: seq<Bullet>)
    ensures Views(a + b) == Views(a) + Views(b)
  {
    if b == [] {
      assert a + b == a;
    } else {
      var init := b[..|b| - 1];
      assert (a + b)[..|a + b| - 1] == a + init;
      assert (a + b)[|a + b| - 1] == b[|b| - 1];
      ViewsConcat(a, init);
    }
  }

  ghost predicate Distinct<T>(s: seq<T>)
  {
    forall i, j :: 0 <= i < j < |s| ==> s[i] != s[j]
  }

  lemma {:induction false} KeepObjectsDistinct(s: seq<Bullet>)
    requires Distinct(s)
    ensures Distinct(KeepObjects(s))
  {
    if s != [] {
      var init := s[..|s| - 1];
      KeepObjectsDistinct(init);
      KeepObjectsShrinks(init);
      assert s[|s| - 1] !in init;
    }
  }

  lemma {:induction false} ViewsOfKept(s: seq<Bullet>)
    ensures Views(KeepObjects(s)) == KeepOnScreen(Views(s))
  {
    if s != [] {
      var init := s[..|s| - 1];
      var last := s[|s| - 1];
      var tail := if last.bulletRectangle.Bottom() <= 0 then [] else [last];
      var viewTail := if OffScreen(last.View()) then [] else [last.View()];
      assert KeepObjects(s) == KeepObjects(init) + tail;
      ViewsConcat(KeepObjects(init), tail);
      assert Views(tail) == viewTail;
      ViewsOfKept(init);
      ViewsOfPrefix(s);
      assert KeepOnScreen(Views(s)) == KeepOnScreen(Views(init)) + viewTail;
    }
  }

  lemma ViewsOfPrefix(s: seq<Bullet>)
    requires s != []
    ensures Views(s[..|s| - 1]) == Views(s)[..|s| - 1]
    ensures Views(s)[|s| - 1] == s[|s| - 1].View()
  {
  }

  // ---------------------------------------------------------------------
  // The game object

  class AlienInvasion {
    const settings: Settings
    /** The display surface's rectangle; its size is the display's. */
    const screenRectangle: Rect
    const captionString: string
    const ship: Ship
    var bullets: seq<Bullet>
    var terminated: bool

    ghost predicate Valid()
      reads this, settings
    {
      && settings.Valid()
      && ship.settings == settings
      && ship.screenRectangle == screenRectangle
      && (forall b :: b in bullets ==> b.settings == settings)
      && Distinct(bullets)
      && |bullets| <= settings.numberOfBulletsAllowed
    }

    ghost function Cfg(): Config
      reads this, settings
    {
      Config(screenRectangle, settings.shipSpeed, settings.bulletSpeed,
             settings.bulletWidth, settings.bulletHeight, settings.bulletColor,
             settings.numberOfBulletsAllowed)
    }

    ghost function State(): GameView
      reads this, ship, bullets
    {
      GameView(terminated, ship.View(), Views(bullets))
    }

    /** The display's size and the ship image's size are given; opening the
        display and loading the image are not modelled. */
    constructor (displayWidth: int, displayHeight: int, shipImageWidth: int, shipImageHeight: int)
      ensures Valid() && fresh(settings) && fresh(ship)
      ensures screenRectangle == Rect(0, 0, displayWidth, displayHeight)
      ensures settings.screenWidth == displayWidth && settings.screenHeight == displayHeight
      ensures settings.screenDimensions == (1200, 800)
      ensures settings.numberOfBulletsAllowed == 3 && settings.shipSpeed == 1.5 && settings.bulletSpeed == 1.0
      ensures settings.bulletWidth == 4 && settings.bulletHeight == 16
      ensures settings.bulletColor == Color(250, 250, 250) && settings.backgroundColor == Color(0, 0, 0)
      ensures settings.alienSpeed == 1.0 && settings.fleetDropSpeed == 16 && settings.fleetHorizontalDirection == 1
      ensures bullets == [] && !terminated
      ensures State() == InitialGame(Cfg(), shipImageWidth, shipImageHeight)
    {
      var s := new Settings();
      s.SetScreenWidth(displayWidth);
      s.SetScreenHeight(displayHeight);
      settings := s;
      captionString := "Alien Invasion!";
      screenRectangle := Rect(0, 0, displayWidth, displayHeight);
      ship := new Ship(s, Rect(0, 0, displayWidth, displayHeight), shipImageWidth, shipImageHeight);
      bullets := [];
      terminated := false;
    }

    method FireBullet()
      requires Valid()
      modifies this`bullets
      ensures Valid()
      ensures State() == Fire(old(State()), Cfg())
      ensures forall b :: b in bullets ==> b in old(bullets) || fresh(b)
    {
      if |bullets| < settings.numberOfBulletsAllowed {
        var newBullet := new Bullet(settings, ship.shipRectangle);
        bullets := bullets + [newBullet];
        assert bullets[..|bullets| - 1] == old(bullets);
      }
    }

    method CheckKeyDownEvents(key: Key)
      requires Valid()
      modifies this`bullets, this`terminated, ship`movingRight, ship`movingLeft
      ensures Valid()
      ensures State() == KeyPressed(old(State()), key, Cfg())
      ensures forall b :: b in bullets ==> b in old(bullets) || fresh(b)
    {
      match key
      case RightArrow => ship.SetMovingRight(true);
      case LeftArrow => ship.SetMovingLeft(true);
      case KeyQ => terminated := true;
      case Space => FireBullet();
      case OtherKey(_) =>
    }

    method CheckKeyUpEvents(key: Key)
      requires Valid()
      modifies ship`movingRight, ship`movingLeft
      ensures State() == KeyReleased(old(State()), key)
    {
      if key == RightArrow {
        ship.SetMovingRight(false);
      }
      if key == LeftArrow {
        ship.SetMovingLeft(false);
      }
    }

    method CheckEvents(events: seq<Event>)
      requires Valid()
      modifies this`bullets, this`terminated, ship`movingRight, ship`movingLeft
      ensures Valid()
      ensures State() == HandleEvents(old(State()), events, Cfg())
      ensures forall b :: b in bullets ==> b in old(bullets) || fresh(b)
    {
      var i := 0;
      while i < |events| && !terminated
        invariant 0 <= i <= |events| && Valid()
        decreases |events| - i
        invariant HandleEvents(State(), events[i..], Cfg()) == HandleEvents(old(State()), events, Cfg())
        invariant forall b :: b in bullets ==> b in old(bullets) || fresh(b)
      {
        ghost var before := State();
        assert events[i..][1..] == events[i + 1..];
        match events[i] {
          case Quit => terminated := true;
          case KeyDown(k) => CheckKeyDownEvents(k);
          case KeyUp(k) => CheckKeyUpEvents(k);
          case OtherEvent =>
        }
        assert State() == HandleEvent(before, events[i], Cfg());
        i := i + 1;
      }
    }

    method UpdateBulletsOnScreen()
      requires Valid()
      modifies this`bullets, bullets
      ensures Valid()
      ensures ship.View() == old(ship.View())
      ensures Views(bullets) == Sweep(old(Views(bullets)), settings.bulletSpeed)
      ensures forall b :: b in bullets ==> b in old(bullets)
      ensures forall b :: b in old(bullets) ==> (b in bullets <==> b.bulletRectangle.Bottom() > 0)
    {
      ghost var pool := bullets;
      ghost var before := State();
      UpdateEveryBullet();
      assert ship.View() == before.ship && Valid();
      assert Views(pool) == StepAll(before.bullets, settings.bulletSpeed);
      ghost var kept := KeepObjects(pool);
      ViewsOfKept(pool);
      ghost var keptViews := Views(kept);
      assert keptViews == Sweep(before.bullets, settings.bulletSpeed);
      RemoveOffScreenBullets();
      assert ship.View() == before.ship;
      assert bullets == kept;
      assert Views(bullets) == keptViews;
    }

    /** The ship's part of a frame. */
    method UpdateShip()
      requires Valid()
      modifies ship`shipX, ship`shipRectangle
      ensures Valid()
      ensures State() == old(State()).(ship := Updated(old(State()).ship, screenRectangle, settings.shipSpeed))
    {
      ghost var before := Views(bullets);
      ship.Update();
      assert Views(bullets) == before;
    }

    /** The pool's own update: every bullet updates itself once. */
    method UpdateEveryBullet()
      requires Valid()
      modifies bullets
      ensures Views(bullets) == StepAll(old(Views(bullets)), settings.bulletSpeed)
    {
      var pool := bullets;
      ghost var before := Views(pool);
      ViewsAt(pool);
      var i := 0;
      while i < |pool|
        invariant 0 <= i <= |pool|
        invariant forall k :: 0 <= k < i ==> pool[k].View() == Stepped(old(pool[k].View()), settings.bulletSpeed)
        invariant forall k :: i <= k < |pool| ==> pool[k].View() == old(pool[k].View())
      {
        pool[i].Update();
        i := i + 1;
      }
      ViewsAt(pool);
      assert Views(pool) == StepAll(before, settings.bulletSpeed);
    }

    /** Every bullet of a snapshot of the pool whose bottom edge is at or
        above the screen's top is removed from the pool. */
    method RemoveOffScreenBullets()
      requires Valid()
      modifies this`bullets
      ensures Valid()
      ensures bullets == old(KeepObjects(bullets))
      ensures forall b :: b in bullets ==> b in old(bullets)
      ensures forall b :: b in old(bullets) ==> (b in bullets <==> b.bulletRectangle.Bottom() > 0)
    {
      var copy := bullets;
      var pool := bullets;
      PendingAtStart(copy);
      var j := 0;
      while j < |copy|
        invariant 0 <= j <= |copy|
        invariant pool == Pending(copy, j)
        modifies {}
      {
        var bullet := copy[j];
        if bullet.bulletRectangle.Bottom() <= 0 {
          RemovalStepDrop(copy, j);
          pool := Without(pool, bullet);
        } else {
          RemovalStepKeep(copy, j);
        }
        j := j + 1;
      }
      PendingAtEnd(copy);
      KeepObjectsExactlyOnScreen(copy);
      KeepObjectsShrinks(copy);
      KeepObjectsDistinct(copy);
      bullets := pool;
    }

    /** Drawing: clear to the background colour, draw the ship, then every
        live bullet in the pool's order. No state changes. */
    method UpdateTheScreen() returns (display: seq<DrawOp>)
      ensures |display| == |bullets| + 2
      ensures display[0] == Fill(settings.backgroundColor)
      ensures display[1] == Blit(ship.shipRectangle)
      ensures forall k :: 0 <= k < |bullets| ==>
                display[k + 2] == DrawRect(bullets[k].bulletColor, bullets[k].bulletRectangle)
    {
      display := [Fill(settings.backgroundColor), Blit(ship.shipRectangle)];
      var sprites := bullets;
      for k := 0 to |sprites|
        invariant |display| == k + 2
        invariant display[0] == Fill(settings.backgroundColor) && display[1] == Blit(ship.shipRectangle)
        invariant forall m :: 0 <= m < k ==>
                    display[m + 2] == DrawRect(sprites[m].bulletColor, sprites[m].bulletRectangle)
      {
        display := display + [DrawRect(sprites[k].bulletColor, sprites[k].bulletRectangle)];
      }
    }

    /** One pass of the main loop. */
    method Step(events: seq<Event>)
      requires Valid()
      modifies this`bullets, this`terminated, ship, bullets
      ensures Valid()
      ensures State() == AdvanceFrame(old(State()), events, Cfg())
      ensures forall b :: b in bullets ==> b in old(bullets) || fresh(b)
    {
      if terminated {
        return;
      }
      CheckEvents(events);
      if terminated {
        return;
      }
      UpdateShip();
      ghost var moved := State();
      assert forall i :: 0 <= i < |bullets| ==> bullets[i] in old(bullets) || fresh(bullets[i]);
      UpdateBulletsOnScreen();
      assert State() == moved.(bullets := Sweep(moved.bullets, settings.bulletSpeed));
      var display := UpdateTheScreen();
    }

    /** The main loop, run over a finite sequence of frames, each given by
        the events that arrive during it. */
    method RunGame(frames: seq<seq<Event>>)
      requires Valid()
      modifies this`bullets, this`terminated, ship, bullets
      ensures Valid()
      ensures State() == Run(old(State()), frames, Cfg())
    {
      var i := 0;
      while i < |frames|
        invariant 0 <= i <= |frames| && Valid()
        invariant Run(State(), frames[i..], Cfg()) == Run(old(State()), frames, Cfg())
        invariant forall b :: b in bullets ==> b in old(bullets) || fresh(b)
      {
        assert frames[i..][1..] == frames[i + 1..];
        assert forall k :: 0 <= k < |bullets| ==> bullets[k] in old(bullets) || fresh(bullets[k]);
        Step(frames[i]);
        i := i + 1;
      }
    }
  }
}
