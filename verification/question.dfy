/** The "will you be my Valentine" screen of app/question.tsx.
    Inside a measured arena sit a "Yes" button and an evasive "No" button.
    Once both the arena and the No button have been measured, No is centred
    in the arena (once only). Every press on No makes it jump to a random
    point that keeps it inside the arena, and makes Yes grow by a saturating
    step. Positions and scales are exact reals; each draw of Math.random() is
    a parameter in [0, 1). */
module Question {

  /** Largest scale the Yes button ever reaches (MAX_YES_SCALE). */
  const MAX_YES_SCALE: real := 1.35
  /** How much the Yes button grows per attempt on No. */
  const YES_SCALE_STEP: real := 0.06

  const RESULT_ROUTE: string := "/result"

  function Max(a: real, b: real): real { if a >= b then a else b }
  function Min(a: real, b: real): real { if a <= b then a else b }

  /** The largest offset at which a box `inner` long still fits inside a box
      `outer` long, or 0 when it does not fit at all (maxX / maxY). */
  function Room(outer: real, inner: real): (r: real)
    ensures r >= 0.0
    ensures inner <= outer ==> r + inner == outer
    ensures outer <= inner ==> r == 0.0
  {
    Max(0.0, outer - inner)
  }

  /** The offset that centres a box `inner` long inside a box `outer` long,
      pushed back to 0 when the box is the larger one (centerX / centerY). */
  function Centre(outer: real, inner: real): (c: real)
    ensures 0.0 <= c <= Room(outer, inner)
    ensures inner <= outer ==> c + inner / 2.0 == outer / 2.0
    ensures inner <= outer ==> c == Room(outer, inner) - c
    ensures outer <= inner ==> c == 0.0
  {
    Max(0.0, (outer - inner) / 2.0)
  }

  /** A random offset in the room left for the button: Math.random() * room. */
  function Jump(room: real, random: real): (x: real)
    requires room >= 0.0
    requires 0.0 <= random < 1.0
    ensures 0.0 <= x <= room
    ensures room > 0.0 ==> x < room
    ensures random == 0.0 ==> x == 0.0
  {
    JumpBound(room, random);
    random * room
  }

  /** A fraction below 1 of a non-negative room stays inside it, strictly when there is room. */
  lemma JumpBound(room: real, random: real)
    requires room >= 0.0
    requires 0.0 <= random < 1.0
    ensures 0.0 <= random * room <= room
    ensures room > 0.0 ==> random * room < room
  {
    if room > 0.0 {
      assert (1.0 - random) * room > 0.0;
    }
  }

  /** The Yes button's next scale: one step larger, but never above the cap. */
  function NextYesScale(s: real): (r: real)
    ensures r <= MAX_YES_SCALE
    ensures s <= MAX_YES_SCALE ==> s <= r
    ensures r == MAX_YES_SCALE || r == s + YES_SCALE_STEP
    ensures s + YES_SCALE_STEP >= MAX_YES_SCALE ==> r == MAX_YES_SCALE
    ensures s + YES_SCALE_STEP < MAX_YES_SCALE ==> r == s + YES_SCALE_STEP
  {
    Min(MAX_YES_SCALE, s + YES_SCALE_STEP)
  }

  /** The Yes scale after `n` effective attempts on No, starting from 1. */
  function ScaleAfter(n: nat): real
  {
    if n == 0 then 1.0 else NextYesScale(ScaleAfter(n - 1))
  }

  /** Closed form of the Yes scale: it grows linearly until it reaches the cap. */
  lemma {:induction false} ScaleAfterAttempts(n: nat)
    ensures ScaleAfter(n) == Min(MAX_YES_SCALE, 1.0 + YES_SCALE_STEP * n as real)
    ensures 1.0 <= ScaleAfter(n) <= MAX_YES_SCALE
  {
    if n > 0 {
      ScaleAfterAttempts(n - 1);
    }
  }

  /** The Yes scale never shrinks from one attempt to the next. */
  lemma {:induction false} ScaleMonotone(m: nat, n: nat)
    requires m <= n
    ensures ScaleAfter(m) <= ScaleAfter(n)
  {
    ScaleAfterAttempts(m);
    ScaleAfterAttempts(n);
  }

  /** Six attempts are enough to reach the cap, and the cap is never left. */
  lemma {:induction false} ScaleSaturates(n: nat)
    requires n >= 6
    ensures ScaleAfter(n) == MAX_YES_SCALE
    ensures ScaleAfter(n + 1) == ScaleAfter(n)
  {
    ScaleAfterAttempts(n);
    ScaleAfterAttempts(n + 1);
  }

  /** The state of one question screen: its measured layout, the No button's
      position, the Yes scale (the yesScaleValue ref), the centring latch
      (the hasPositionedNo ref), the success message flag and the routes
      pushed so far. */
  class QuestionScreen {
    var arenaWidth: real
    var arenaHeight: real
    var noWidth: real
    var noHeight: real
    var noX: real
    var noY: real
    var yesScale: real
    var hasPositionedNo: bool
    var showYesMessage: bool
    var navigation: seq<string>
    /** Whether the router knows a "result" route. */
    const hasResultRoute: bool
    /** Number of attempts on No that moved the button. */
    ghost var attempts: nat

    /** All four sizes are measured (none is still 0). */
    predicate Measured()
      reads this
    {
      arenaWidth != 0.0 && arenaHeight != 0.0 && noWidth != 0.0 && noHeight != 0.0
    }

    /** Everything except the link between measurement and the latch,
        which holds again once the centring effect has run. */
    ghost predicate Consistent()
      reads this
    {
      && arenaWidth >= 0.0 && arenaHeight >= 0.0 && noWidth >= 0.0 && noHeight >= 0.0
      && noX >= 0.0 && noY >= 0.0
      && yesScale == ScaleAfter(attempts)
      && (!hasPositionedNo ==> noX == 0.0 && noY == 0.0 && attempts == 0)
    }

    /** The screen's invariant: the No button has been centred as soon as
        everything is measured, and it never moved before that. */
    ghost predicate Valid()
      reads this
    {
      Consistent() && (Measured() ==> hasPositionedNo)
    }

    constructor (hasResultRoute: bool)
      ensures Valid()
      ensures this.hasResultRoute == hasResultRoute
      ensures arenaWidth == 0.0 && arenaHeight == 0.0 && noWidth == 0.0 && noHeight == 0.0
      ensures noX == 0.0 && noY == 0.0 && yesScale == 1.0 && attempts == 0
      ensures !hasPositionedNo && !showYesMessage && navigation == []
    {
      this.hasResultRoute := hasResultRoute;
      arenaWidth, arenaHeight, noWidth, noHeight := 0.0, 0.0, 0.0, 0.0;
      noX, noY := 0.0, 0.0;
      yesScale := 1.0;
      hasPositionedNo := false;
      showYesMessage := false;
      navigation := [];
      attempts := 0;
    }

    /** The centring effect, run after every change of a measured size:
        the first time everything is measured, No is centred and the latch set. */
    method PositionEffect()
      requires Consistent()
      modifies this`noX, this`noY, this`hasPositionedNo
      ensures Valid()
      ensures old(hasPositionedNo) || !Measured() ==>
                noX == old(noX) && noY == old(noY) && hasPositionedNo == old(hasPositionedNo)
      ensures !old(hasPositionedNo) && Measured() ==>
                && noX == Centre(arenaWidth, noWidth)
                && noY == Centre(arenaHeight, noHeight)
                && hasPositionedNo
    {
      if hasPositionedNo || arenaWidth == 0.0 || arenaHeight == 0.0 {
        return;
      }
      if noWidth == 0.0 || noHeight == 0.0 {
        return;
      }
      noX, noY := Centre(arenaWidth, noWidth), Centre(arenaHeight, noHeight);
      hasPositionedNo := true;
    }

    /** The arena's onLayout: store its size, then run the centring effect. */
    method MeasureArena(width: real, height: real)
      requires Valid()
      requires width >= 0.0 && height >= 0.0
      modifies this`arenaWidth, this`arenaHeight, this`noX, this`noY, this`hasPositionedNo
      ensures Valid()
      ensures arenaWidth == width && arenaHeight == height
      ensures old(hasPositionedNo) || !Measured() ==>
                noX == old(noX) && noY == old(noY) && hasPositionedNo == old(hasPositionedNo)
      ensures !old(hasPositionedNo) && Measured() ==>
                noX == Centre(width, noWidth) && noY == Centre(height, noHeight) && hasPositionedNo
    {
      arenaWidth, arenaHeight := width, height;
      PositionEffect();
    }

    /** The No button's onLayout: store its size, then run the centring effect. */
    method MeasureNo(width: real, height: real)
      requires Valid()
      requires width >= 0.0 && height >= 0.0
      modifies this`noWidth, this`noHeight, this`noX, this`noY, this`hasPositionedNo
      ensures Valid()
      ensures noWidth == width && noHeight == height
      ensures old(hasPositionedNo) || !Measured() ==>
                noX == old(noX) && noY == old(noY) && hasPositionedNo == old(hasPositionedNo)
      ensures !old(hasPositionedNo) && Measured() ==>
                noX == Centre(arenaWidth, width) && noY == Centre(arenaHeight, height) && hasPositionedNo
    {
      noWidth, noHeight := width, height;
      PositionEffect();
    }

    /** A press on No (onPressIn): unless a size is still unmeasured, jump to
        the random point (randomX, randomY) scaled into the room left in the
        arena, and grow Yes by one saturating step. */
    method HandleNoAttempt(randomX: real, randomY: real)
      requires Valid()
      requires 0.0 <= randomX < 1.0 && 0.0 <= randomY < 1.0
      modifies this`noX, this`noY, this`yesScale, this`attempts
      ensures Valid()
      ensures !Measured() ==>
                noX == old(noX) && noY == old(noY) && yesScale == old(yesScale) && attempts == old(attempts)
      ensures Measured() ==>
                && noX == Jump(Room(arenaWidth, noWidth), randomX)
                && noY == Jump(Room(arenaHeight, noHeight), randomY)
                && 0.0 <= noX <= Room(arenaWidth, noWidth)
                && 0.0 <= noY <= Room(arenaHeight, noHeight)
                && yesScale == NextYesScale(old(yesScale))
                && attempts == old(attempts) + 1
      ensures old(yesScale) <= yesScale <= MAX_YES_SCALE
    {
      ScaleAfterAttempts(attempts);
      if arenaWidth == 0.0 || arenaHeight == 0.0 || noWidth == 0.0 || noHeight == 0.0 {
        return;
      }
      noX := Jump(Room(arenaWidth, noWidth), randomX);
      noY := Jump(Room(arenaHeight, noHeight), randomY);
      yesScale := NextYesScale(yesScale);
      attempts := attempts + 1;
    }

    /** A press on Yes: go to the result route when the router has one,
        otherwise show the success message in place. */
    method HandleYes()
      modifies this`navigation, this`showYesMessage
      ensures hasResultRoute ==>
                navigation == old(navigation) + [RESULT_ROUTE] && showYesMessage == old(showYesMessage)
      ensures !hasResultRoute ==> navigation == old(navigation) && showYesMessage
    {
      if hasResultRoute {
        navigation := navigation + [RESULT_ROUTE];
        return;
      }
      showYesMessage := true;
    }
  }
}
