/**
 * Collectable power-ups placed in the level: a pickup test against the
 * player's position and a cull test against the camera.
 */
module PowerUps {
  import opened Wrappers
  import opened Fixnum

  /** Width of the GBA screen, in pixels. */
  const WIDTH: int := 240

  /** Pickup radius, in pixels. */
  const PICKUP_RADIUS: int := 16

  datatype PowerUp = JumpBoost

  datatype PowerUpObject = PowerUpObject(location: Vec, kind: PowerUp) {
    /** `update`: the power-up is handed over when the player is strictly within 16 pixels. */
    function Update(playerLocation: Vec): (r: Option<PowerUp>)
      ensures r.Some? <==> MagnitudeSquared(Sub(playerLocation, location)) < FromInt(PICKUP_RADIUS * PICKUP_RADIUS)
      ensures r.Some? ==> r.value == kind
    {
      if MagnitudeSquared(Sub(playerLocation, location)) < FromInt(PICKUP_RADIUS * PICKUP_RADIUS) then Some(kind)
      else None
    }

    /** The cull test of `display`: nothing is drawn farther than a screen width from the camera. */
    function Visible(cameraLocation: Vec): (r: bool)
      ensures !r <==> MagnitudeSquared(Sub(location, cameraLocation)) > FromInt(WIDTH * WIDTH)
    {
      MagnitudeSquared(Sub(location, cameraLocation)) <= FromInt(WIDTH * WIDTH)
    }
  }

  /** The comparison is strict: a player exactly 16 pixels away collects nothing. */
  lemma ExactlySixteenAway(o: PowerUpObject, dx: Number, dy: Number)
    requires (dx == 0 && Abs(dy) == FromInt(16)) || (dy == 0 && Abs(dx) == FromInt(16))
    ensures o.Update(Add(o.location, Vec(dx, dy))) == None
  {
    var d := Sub(Add(o.location, Vec(dx, dy)), o.location);
    assert d == Vec(dx, dy);
    MulUnit(0);
    assert Mul(FromInt(16), FromInt(16)) == FromInt(256);
    assert Mul(-FromInt(16), -FromInt(16)) == FromInt(256);
  }

  /** A player standing on the power-up collects it. */
  lemma CollectedAtLocation(o: PowerUpObject)
    ensures o.Update(o.location) == Some(o.kind)
  {
    assert Sub(o.location, o.location) == Zero;
  }

  /** With the camera on the player, a power-up close enough to collect is also drawn. */
  lemma CollectableIsVisible(o: PowerUpObject, player: Vec)
    requires o.Update(player).Some?
    ensures o.Visible(player)
  {
    DistanceSymmetric(player, o.location);
  }
}
