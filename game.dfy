/**
 * The per-frame rules of the game scene: the player's facing, dash and jump
 * state machine, gravity-source selection, collision response and ground
 * classification, the death-and-recovery timeline, the camera with its
 * scroll stops, and power-up pickup.
 */
module GameScene {
  import opened Wrappers
  import opened Fixnum
  import opened Util
  import MapLib
  import PowerUps

  datatype PlayerFacing = Left | Right
  datatype JumpState = HasJump | Jumping | Falling
  datatype GroundState = OnGround | InAir
  datatype DashState = Available | Used

  /** The linear part of the player's affine matrix; its translation is always zero. */
  datatype AffineMatrix = AffineMatrix(a: Number, b: Number, c: Number, d: Number)

  const IDENTITY := AffineMatrix(ONE, 0, 0, ONE)

  datatype RecoveringState = RecoveringState(
    recoverTo: Vec,
    startingFrom: Vec,
    startingReverseLocalGravity: Vec,
    destinationReverseLocalGravity: Vec,
    time: nat)

  datatype PlayerState =
    | Playing(remainingPopTime: nat, popLocation: Vec)
    | Recovering(recover: RecoveringState)

  /** The fields of a `Player`. */
  datatype PlayerData = PlayerData(
    angle: AffineMatrix,
    surfaceNormal: Vec,
    speed: Vec,
    position: Vec,
    facing: PlayerFacing,
    groundState: GroundState,
    groundSpeed: Number,
    airSpeed: Number,
    canDash: bool,
    dashState: DashState,
    maxJumps: nat,
    jumpsRemaining: nat,
    jumpState: JumpState,
    jumpSpeed: Number,
    frame: nat)

  /** `usize` on the GBA is 32 bits wide. */
  const USIZE_LIMIT: int := 0x1_0000_0000

  // Fixed-point constants, as raw values (num! truncates to 1/256).
  const CONTACT_GROUND: Number := 204   // num!(0.8)
  const CONTACT_STEEP: Number := 179    // num!(0.7)
  const FRICTION_GROUND: Number := 204  // num!(0.8)
  const FRICTION_STEEP: Number := 230   // num!(0.90)
  const FRICTION_AIR: Number := 243     // num!(0.95)
  const SETTLE_SPEED: Number := 1       // num!(0.005)
  const DASH_SPEED: Number := 768       // num!(3.)
  const BOOSTED_JUMP_SPEED: Number := 896  // num!(3.5)
  const CAMERA_CHASE_SPEED: Number := 320  // num!(1.25)
  const NO_CONTACT: Number := -256      // num!(-1.)

  const PLAYER_RADIUS: int := 8
  const JUMP_FRAMES: int := 32

  /** What `Game::new` gives the player. */
  function InitialPlayer(start: Vec): (p: PlayerData)
    ensures ValidPlayer(p)
  {
    PlayerData(IDENTITY, Zero, Zero, start, Right, InAir, 64, 16, false, Available, 1, 1, Falling, 563, 0)
  }

  /**
   * The player's invariant: at least one jump, never more remaining than the
   * maximum, a jump in hand only while one remains, and a 32-bit frame counter.
   */
  predicate ValidPlayer(p: PlayerData) {
    && p.maxJumps >= 1
    && p.jumpsRemaining <= p.maxJumps
    && (p.jumpState == HasJump ==> p.jumpsRemaining >= 1)
    && p.frame < USIZE_LIMIT
  }

  /** `get_normal`: the direction the player's head points, read back from the matrix. */
  function Normal(p: PlayerData): Vec {
    Vec(p.angle.b, -p.angle.a)
  }

  /** `update_facing`: rotate the player so that its normal is `direction`. */
  function FaceTowards(p: PlayerData, direction: Vec): (r: PlayerData)
    ensures Normal(r) == direction
    ensures r == p.(angle := r.angle)
  {
    p.(angle := AffineMatrix(-direction.y, direction.x, -direction.x, -direction.y))
  }

  /** The acceleration of a sideways input: `x` units along the surface, turned into world space by `normal`. */
  function SideAcceleration(normal: Vec, x: int, scalar: Number): Vec {
    var acceleration := Scale(Vec(0, FromInt(x)), scalar);
    Vec(Mul(normal.x, acceleration.x) - Mul(normal.y, acceleration.y),
        Mul(normal.y, acceleration.x) + Mul(normal.x, acceleration.y))
  }

  /** Whether a sideways input spends the dash. */
  predicate Dashes(p: PlayerData, x: int, isDashing: bool) {
    x != 0 && p.canDash && isDashing && p.dashState == Available
  }

  /** `handle_direction_input`. */
  function DirectionInput(p: PlayerData, x: int, isDashing: bool): (r: PlayerData)
    ensures x == 0 ==> r == p
    ensures x != 0 ==> (r.facing == Left <==> x < 0)
    ensures r.dashState == Used <==> p.dashState == Used || Dashes(p, x, isDashing)
    ensures r == p.(speed := r.speed, facing := r.facing, dashState := r.dashState)
  {
    if x == 0 then p
    else
      var dash := if Dashes(p, x, isDashing) then DASH_SPEED else 0;
      var onGround := p.groundState == OnGround;
      var scalar := (if onGround then p.groundSpeed else p.airSpeed) + dash;
      var normal := if onGround && Dot(p.surfaceNormal, Normal(p)) > CONTACT_STEEP then p.surfaceNormal else Normal(p);
      p.(dashState := if Dashes(p, x, isDashing) then Used else p.dashState,
         speed := Add(p.speed, SideAcceleration(normal, x, scalar)),
         facing := if x < 0 then Left else Right)
  }

  /** Once spent, the dash stays spent whatever the input, until a ground contact restores it. */
  lemma DashSpentOnce(p: PlayerData, x: int, isDashing: bool, y: int, again: bool)
    requires DirectionInput(p, x, isDashing).dashState == Used
    ensures !Dashes(DirectionInput(p, x, isDashing), y, again)
    ensures DirectionInput(DirectionInput(p, x, isDashing), y, again).dashState == Used
  {
  }

  /** `handle_jump_input`: jump off the surface when a jump is in hand. */
  function JumpInput(p: PlayerData): (r: PlayerData)
    requires ValidPlayer(p)
    ensures ValidPlayer(r)
    ensures p.jumpState != HasJump ==> r == p
    ensures p.jumpState == HasJump ==>
      && r.jumpState == Jumping && r.jumpsRemaining == p.jumpsRemaining - 1 && r.frame == 0
      && r == p.(speed := r.speed, position := r.position, jumpState := Jumping,
                 jumpsRemaining := p.jumpsRemaining - 1, frame := 0)
  {
    if p.jumpState != HasJump then p
    else
      var normal := Normal(p);
      var dot := Dot(p.speed, normal);
      var speed := if dot < 0 then Sub(p.speed, Scale(normal, dot)) else p.speed;
      var speed := Add(speed, Scale(normal, p.jumpSpeed));
      p.(speed := speed, position := Add(p.position, speed), jumpState := Jumping,
         jumpsRemaining := p.jumpsRemaining - 1, frame := 0)
  }

  /** `frame`: count the frame; a jump lasts 32 frames, then the next one is in hand if any remain. */
  function FrameTick(p: PlayerData): (r: PlayerData)
    requires ValidPlayer(p)
    ensures ValidPlayer(r)
    ensures r.frame == (p.frame + 1) % USIZE_LIMIT
    ensures p.jumpState == Jumping && r.frame > JUMP_FRAMES ==>
      r.jumpState == (if p.jumpsRemaining > 0 then HasJump else Falling)
    ensures !(p.jumpState == Jumping && r.frame > JUMP_FRAMES) ==> r.jumpState == p.jumpState
    ensures r == p.(frame := r.frame, jumpState := r.jumpState)
  {
    var frame := (p.frame + 1) % USIZE_LIMIT;
    var jumpState :=
      if p.jumpState == Jumping && frame > JUMP_FRAMES then
        (if p.jumpsRemaining > 0 then HasJump else Falling)
      else p.jumpState;
    p.(frame := frame, jumpState := jumpState)
  }

  /** A jump taken with the last remaining jump ends in a fall, 33 frames later. */
  lemma {:induction false} LastJumpFalls(p: PlayerData)
    requires ValidPlayer(p) && p.jumpState == HasJump && p.jumpsRemaining == 1
    ensures var r := Ticks(JumpInput(p), 33); r.jumpState == Falling && r.frame == 33
  {
    var q := JumpInput(p);
    TicksWhileJumping(q, 32);
    assert Ticks(q, 33) == FrameTick(Ticks(q, 32));
  }

  /** n calls of `frame`. */
  function Ticks(p: PlayerData, n: nat): (r: PlayerData)
    requires ValidPlayer(p)
    ensures ValidPlayer(r)
  {
    if n == 0 then p else FrameTick(Ticks(p, n - 1))
  }

  /** For the first 32 frames of a jump, the player keeps jumping. */
  lemma {:induction false} TicksWhileJumping(p: PlayerData, n: nat)
    requires ValidPlayer(p) && p.jumpState == Jumping && p.frame == 0 && n <= JUMP_FRAMES
    ensures Ticks(p, n).jumpState == Jumping && Ticks(p, n).frame == n
    ensures Ticks(p, n).jumpsRemaining == p.jumpsRemaining
  {
    if n > 0 {
      TicksWhileJumping(p, n - 1);
    }
  }

  /** `apply_powerup`. */
  function ApplyPowerUp(p: PlayerData, kind: MapLib.PowerUpKind): (r: PlayerData)
    ensures ValidPlayer(p) ==> ValidPlayer(r)
    ensures kind == MapLib.JumpBoost ==> r.jumpSpeed == BOOSTED_JUMP_SPEED && r == p.(jumpSpeed := r.jumpSpeed)
    ensures kind == MapLib.SpeedBoost ==> r.canDash && r == p.(canDash := true)
  {
    match kind
    case JumpBoost => p.(jumpSpeed := BOOSTED_JUMP_SPEED)
    case SpeedBoost => p.(canDash := true)
  }

  /** Collecting the same kind of power-up twice has the effect of collecting it once. */
  lemma ApplyPowerUpIdempotent(p: PlayerData, kind: MapLib.PowerUpKind)
    ensures ApplyPowerUp(ApplyPowerUp(p, kind), kind) == ApplyPowerUp(p, kind)
  {
  }

  /** The kind of power-up `PowerUpObject::update` hands to the player. */
  function KindOf(kind: PowerUps.PowerUp): MapLib.PowerUpKind {
    match kind
    case JumpBoost => MapLib.JumpBoost
  }

  /** `speed.magnitude_squared() < num!(0.005)` zeroes the speed. */
  function Settle(v: Vec): (r: Vec)
    ensures r == Zero || r == v
    ensures r == Zero <==> MagnitudeSquared(v) < SETTLE_SPEED
  {
    if MagnitudeSquared(v) < SETTLE_SPEED then Zero else v
  }

  /** The settle threshold, in raw units: both components are below 16/256 of a pixel per frame. */
  lemma SettleThreshold(v: Vec)
    ensures Settle(v) == Zero <==> -16 < v.x < 16 && -16 < v.y < 16
  {
    SquareBelowOne(v.x);
    SquareBelowOne(v.y);
  }

  lemma SquareBelowOne(a: Number)
    ensures Mul(a, a) >= 0
    ensures Mul(a, a) == 0 <==> -16 < a < 16
  {
    if a >= 16 {
      assert a * a >= 16 * a >= 256;
    } else if a <= -16 {
      assert a * a >= -16 * a >= 256;
    } else {
      assert 0 <= a * a < 256 by {
        if a >= 0 { assert a * a <= 15 * a <= 225; } else { assert a * a <= -15 * a <= 225; }
      }
    }
  }

  /**
   * Ground classification after the collision pass: a contact cosine above
   * 0.8 is ground with friction 0.8, above 0.7 ground with friction 0.9, and
   * anything else, or no contact, is air with friction 0.95. Ground refreshes
   * the jumps and the dash. Then a crawling speed is zeroed.
   */
  function GroundContact(p: PlayerData, contact: Option<Number>): (r: PlayerData)
    requires ValidPlayer(p)
    ensures ValidPlayer(r)
    ensures r.groundState == OnGround <==> contact.Some? && contact.value > CONTACT_STEEP
    ensures r.groundState == OnGround ==>
      r.jumpState == HasJump && r.dashState == Available && r.jumpsRemaining == r.maxJumps
    ensures r.groundState == InAir ==>
      r.jumpState == p.jumpState && r.dashState == p.dashState && r.jumpsRemaining == p.jumpsRemaining
    ensures r.speed == Settle(Scale(p.speed,
      if contact.Some? && contact.value > CONTACT_GROUND then FRICTION_GROUND
      else if contact.Some? && contact.value > CONTACT_STEEP then FRICTION_STEEP
      else FRICTION_AIR))
    ensures r == p.(groundState := r.groundState, jumpState := r.jumpState, dashState := r.dashState,
                    jumpsRemaining := r.jumpsRemaining, speed := r.speed)
  {
    var q :=
      if contact.Some? && contact.value > CONTACT_GROUND then
        p.(jumpState := HasJump, dashState := Available, jumpsRemaining := p.maxJumps,
           speed := Scale(p.speed, FRICTION_GROUND), groundState := OnGround)
      else if contact.Some? && contact.value > CONTACT_STEEP then
        p.(jumpState := HasJump, dashState := Available, jumpsRemaining := p.maxJumps,
           speed := Scale(p.speed, FRICTION_STEEP), groundState := OnGround)
      else
        p.(speed := Scale(p.speed, FRICTION_AIR), groundState := InAir);
    q.(speed := Settle(q.speed))
  }

  /** Landing always leaves a jump in hand, so the next jump input is taken. */
  lemma LandingAllowsJump(p: PlayerData, contact: Option<Number>)
    requires ValidPlayer(p)
    requires contact.Some? && contact.value > CONTACT_STEEP
    ensures JumpInput(GroundContact(p, contact)).jumpState == Jumping
  {
  }

  /**
   * The end of `physics_frame` after the collision pass: classify the
   * contact, turn the player to face away from gravity, and move it by its
   * speed.
   */
  function Landing(p: PlayerData, contact: Option<Number>, gravityDirection: Vec): (r: PlayerData)
    requires ValidPlayer(p)
    ensures ValidPlayer(r)
  {
    var q := FaceTowards(GroundContact(p, contact), Neg(gravityDirection));
    q.(position := Add(q.position, q.speed))
  }

  /** What the end of `physics_frame` guarantees about the player. */
  lemma LandingClassifies(p: PlayerData, contact: Option<Number>, gravityDirection: Vec)
    requires ValidPlayer(p)
    ensures var r := Landing(p, contact, gravityDirection);
      && (r.groundState == OnGround <==> contact.Some? && contact.value > CONTACT_STEEP)
      && (r.groundState == OnGround ==>
            r.jumpState == HasJump && r.dashState == Available && r.jumpsRemaining == r.maxJumps)
      && (r.groundState == InAir ==>
            r.jumpState == p.jumpState && r.dashState == p.dashState && r.jumpsRemaining == p.jumpsRemaining)
      && (r.speed == Zero || MagnitudeSquared(r.speed) >= SETTLE_SPEED)
      && Normal(r) == Neg(gravityDirection)
      && r.position == Add(p.position, r.speed)
  {
    var g := GroundContact(p, contact);
    assert Landing(p, contact, gravityDirection).speed == g.speed;
  }

  /** The gravity added to the speed each frame: weaker while a held jump is still rising. */
  function Gravity(p: PlayerData, gravityDirection: Vec, jumpPressed: bool): Vec
  {
    DivInt(gravityDirection, if p.jumpState == Jumping && jumpPressed then 128 else 10)
  }

  /** Squared distance from `position` to the closest point of a collider. */
  function Pull(ops: Numerics, c: Collider, position: Vec): Number
    requires c.Valid()
  {
    MagnitudeSquared(Sub(c.ClosestPoint(ops, position), position))
  }

  predicate AllValid(cs: seq<Collider>) {
    forall i :: 0 <= i < |cs| ==> cs[i].Valid()
  }

  /**
   * The index `get_gravity_source` picks: among the gravitational colliders,
   * one whose closest point is nearest, the first on ties; None when no
   * collider is gravitational (where the source panics).
   */
  function GravityIndex(ops: Numerics, cs: seq<Collider>, position: Vec): (r: Option<nat>)
    requires AllValid(cs)
    ensures r.None? <==> forall i :: 0 <= i < |cs| ==> !cs[i].tag.IsGravitational()
    ensures r.Some? ==> r.value < |cs| && cs[r.value].tag.IsGravitational()
    ensures r.Some? ==> forall j :: 0 <= j < |cs| && cs[j].tag.IsGravitational() ==>
      Pull(ops, cs[r.value], position) <= Pull(ops, cs[j], position)
    ensures r.Some? ==> forall j :: 0 <= j < r.value && cs[j].tag.IsGravitational() ==>
      Pull(ops, cs[j], position) > Pull(ops, cs[r.value], position)
    decreases |cs|
  {
    if cs == [] then None
    else
      var init := cs[..|cs| - 1];
      var last := cs[|cs| - 1];
      assert forall j :: 0 <= j < |init| ==> init[j] == cs[j];
      var best := GravityIndex(ops, init, position);
      if !last.tag.IsGravitational() then best
      else if best.None? then Some(|cs| - 1)
      else if Pull(ops, last, position) < Pull(ops, cs[best.value], position) then Some(|cs| - 1)
      else best
  }

  /** The free `get_gravity_source`: the chosen collider and its closest point to `position`. */
  function GravitySource(ops: Numerics, cs: seq<Collider>, position: Vec): (r: Option<(Collider, Vec)>)
    requires AllValid(cs)
    ensures r.None? <==> forall i :: 0 <= i < |cs| ==> !cs[i].tag.IsGravitational()
    ensures r.Some? ==>
      r.value.0 in cs && r.value.0.tag.IsGravitational() && r.value.1 == r.value.0.ClosestPoint(ops, position)
    ensures r.Some? ==> forall c :: c in cs && c.tag.IsGravitational() ==>
      Pull(ops, r.value.0, position) <= Pull(ops, c, position)
  {
    match GravityIndex(ops, cs, position)
    case None => None
    case Some(i) => Some((cs[i], cs[i].ClosestPoint(ops, position)))
  }

  /** Non-gravitational colliders never influence the choice: dropping them changes nothing. */
  lemma {:induction false} GravityIgnoresOthers(ops: Numerics, cs: seq<Collider>, c: Collider, position: Vec)
    requires AllValid(cs) && c.Valid() && !c.tag.IsGravitational()
    ensures AllValid(cs + [c])
    ensures GravitySource(ops, cs + [c], position) == GravitySource(ops, cs, position)
  {
    var all := cs + [c];
    assert all[..|all| - 1] == cs;
  }

  /** What the game reads from outside: the numerics, the generated tables and the pop animation length. */
  datatype Env = Env(ops: Numerics, tables: MapLib.Tables, bubblePopFrames: nat, cameraStart: Vec, startPoint: Vec) {
    predicate Valid() { tables.Valid() }
  }

  /** `Terrain::colliders`: the colliders listed for the player's cell. */
  function Nearby(env: Env, position: Vec): (r: seq<Collider>)
    requires env.Valid()
    ensures AllValid(r)
  {
    MapLib.GetNearby(env.tables, Floor(position.x), Floor(position.y))
  }

  /**
   * `handle_player_death`: recover to the nearest recovery point, starting
   * from the current position. None where the source panics: no recovery
   * point, no gravity source so far, or no gravitational collider near the
   * recovery point.
   */
  function Death(env: Env, last: Option<Collider>, position: Vec): (r: Option<RecoveringState>)
    requires env.Valid() && (last.Some? ==> last.value.Valid())
    ensures r.Some? <==>
      && env.tables.recoveryPoints != [] && last.Some?
      && GravitySource(env.ops, Nearby(env, MapLib.GetRecoveryPoint(env.tables, position).value),
                       MapLib.GetRecoveryPoint(env.tables, position).value).Some?
    ensures r.Some? ==>
      && r.value.time == 0 && r.value.startingFrom == position
      && r.value.recoverTo == MapLib.GetRecoveryPoint(env.tables, position).value
  {
    match MapLib.GetRecoveryPoint(env.tables, position)
    case None => None
    case Some(recoverTo) =>
      if last.None? then None
      else match GravitySource(env.ops, Nearby(env, recoverTo), recoverTo)
        case None => None
        case Some(source) =>
          Some(RecoveringState(
            recoverTo, position,
            env.ops.fastNormalise(Sub(position, last.value.ClosestPoint(env.ops, position))),
            env.ops.fastNormalise(Sub(recoverTo, source.1)),
            0))
  }

  /** The state `handle_collider_collisions` threads through its loop. */
  datatype Contact = Contact(player: PlayerData, state: PlayerState, maxAngle: Option<Number>)

  function PlayerCircle(position: Vec): Circle {
    Circle(position, FromInt(PLAYER_RADIUS))
  }

  /** Remove the part of `speed` that moves into the surface with normal `normal`. */
  function StopInto(speed: Vec, normal: Vec): (r: Vec)
    ensures Dot(normal, speed) >= 0 ==> r == speed
  {
    var dot := Dot(normal, speed);
    if dot < 0 then Sub(speed, Scale(normal, dot)) else speed
  }

  /**
   * One collider of `handle_collider_collisions`: nothing when it misses the
   * player's circle; death when it kills; otherwise push the player out,
   * stop it moving into the surface and record the contact cosine.
   */
  function CollideOne(env: Env, last: Option<Collider>, s: Contact, c: Collider): (r: Option<Contact>)
    requires env.Valid() && c.Valid() && (last.Some? ==> last.value.Valid())
    ensures !c.CollidesCircle(env.ops, PlayerCircle(s.player.position)) ==> r == Some(s)
    ensures c.CollidesCircle(env.ops, PlayerCircle(s.player.position)) && c.tag.IsKillsPlayer() ==>
      r == (match Death(env, last, s.player.position)
            case None => None
            case Some(recover) => Some(s.(state := Recovering(recover))))
    ensures c.CollidesCircle(env.ops, PlayerCircle(s.player.position)) && c.tag.IsCollision() ==>
      var normal := c.NormalCircle(env.ops, PlayerCircle(s.player.position));
      && r.Some? && r.value.state == s.state
      && r.value.maxAngle == Some(Max(s.maxAngle.GetOr(NO_CONTACT), Dot(Normal(s.player), normal)))
      && r.value.player == s.player.(
           surfaceNormal := normal,
           speed := StopInto(s.player.speed, normal),
           position := Add(s.player.position, c.Overshoot(env.ops, PlayerCircle(s.player.position))))
  {
    var circle := PlayerCircle(s.player.position);
    if !c.CollidesCircle(env.ops, circle) then Some(s)
    else if c.tag.IsKillsPlayer() then
      match Death(env, last, s.player.position)
      case None => None
      case Some(recover) => Some(s.(state := Recovering(recover)))
    else
      TagPartition(c.tag);
      var normal := c.NormalCircle(env.ops, circle);
      var cosine := Dot(Normal(s.player), normal);
      Some(Contact(
        s.player.(surfaceNormal := normal,
                  speed := StopInto(s.player.speed, normal),
                  position := Add(s.player.position, c.Overshoot(env.ops, circle))),
        s.state,
        Some(Max(s.maxAngle.GetOr(NO_CONTACT), cosine))))
  }

  /** The whole loop of `handle_collider_collisions`, collider by collider; None once a death panics. */
  function CollideAll(env: Env, last: Option<Collider>, s: Contact, cs: seq<Collider>): (r: Option<Contact>)
    requires env.Valid() && AllValid(cs) && (last.Some? ==> last.value.Valid())
    ensures r.Some? ==> r.value.state == s.state || r.value.state.Recovering?
    decreases |cs|
  {
    if cs == [] then Some(s)
    else
      var init := cs[..|cs| - 1];
      assert forall j :: 0 <= j < |init| ==> init[j] == cs[j];
      match CollideAll(env, last, s, init)
      case None => None
      case Some(t) => CollideOne(env, last, t, cs[|cs| - 1])
  }

  /**
   * `handle_collider_collisions` reports no contact exactly when no
   * collision-tagged collider touches the player's circle where it stood
   * before the loop; until a contact the player does not move, and the
   * player's other fields are untouched by killing colliders.
   */
  lemma {:induction false} NoContactIff(env: Env, last: Option<Collider>, s: Contact, cs: seq<Collider>)
    requires env.Valid() && AllValid(cs) && (last.Some? ==> last.value.Valid())
    requires s.maxAngle.None?
    requires CollideAll(env, last, s, cs).Some?
    ensures var r := CollideAll(env, last, s, cs).value;
      && (r.maxAngle.None? <==>
            forall i :: 0 <= i < |cs| && cs[i].tag.IsCollision() ==>
              !cs[i].CollidesCircle(env.ops, PlayerCircle(s.player.position)))
      && (r.maxAngle.None? ==> r.player == s.player)
    decreases |cs|
  {
    if cs != [] {
      var init := cs[..|cs| - 1];
      assert forall j :: 0 <= j < |init| ==> init[j] == cs[j];
      NoContactIff(env, last, s, init);
      var t := CollideAll(env, last, s, init).value;
      var c := cs[|cs| - 1];
      TagPartition(c.tag);
      if t.maxAngle.Some? {
        var i :| 0 <= i < |init| && init[i].tag.IsCollision()
          && init[i].CollidesCircle(env.ops, PlayerCircle(s.player.position));
        assert cs[i] == init[i];
      }
    }
  }

  /** Once a contact is recorded, the reported cosine never drops below -1. */
  lemma {:induction false} ContactAtLeastMinusOne(env: Env, last: Option<Collider>, s: Contact, cs: seq<Collider>)
    requires env.Valid() && AllValid(cs) && (last.Some? ==> last.value.Valid())
    requires s.maxAngle.Some? ==> s.maxAngle.value >= NO_CONTACT
    requires CollideAll(env, last, s, cs).Some?
    ensures var r := CollideAll(env, last, s, cs).value;
      r.maxAngle.Some? ==> r.maxAngle.value >= NO_CONTACT
    decreases |cs|
  {
    if cs != [] {
      var init := cs[..|cs| - 1];
      assert forall j :: 0 <= j < |init| ==> init[j] == cs[j];
      ContactAtLeastMinusOne(env, last, s, init);
    }
  }

  /**
   * Scroll-stop clamping of the camera destination: each bound applies only
   * when the camera is already on its allowed side, and then keeps it there.
   */
  function ClampToScrollStop(camera: Vec, destination: Vec, stop: ScrollStop): (r: Vec)
    ensures stop.minimumX.Some? && camera.x >= stop.minimumX.value ==> r.x >= stop.minimumX.value
    ensures stop.minimumY.Some? && camera.y >= stop.minimumY.value ==> r.y >= stop.minimumY.value
    ensures stop.maximumX.Some? && camera.x <= stop.maximumX.value ==> r.x <= stop.maximumX.value
    ensures stop.maximumY.Some? && camera.y <= stop.maximumY.value ==> r.y <= stop.maximumY.value
    ensures ((stop.minimumX.None? || camera.x < stop.minimumX.value) &&
             (stop.maximumX.None? || camera.x > stop.maximumX.value)) ==> r.x == destination.x
    ensures ((stop.minimumY.None? || camera.y < stop.minimumY.value) &&
             (stop.maximumY.None? || camera.y > stop.maximumY.value)) ==> r.y == destination.y
    ensures r.x == destination.x || Some(r.x) == stop.minimumX || Some(r.x) == stop.maximumX
    ensures r.y == destination.y || Some(r.y) == stop.minimumY || Some(r.y) == stop.maximumY
  {
    var x := destination.x;
    var y := destination.y;
    var x := if stop.minimumX.Some? && camera.x >= stop.minimumX.value then Max(x, stop.minimumX.value) else x;
    var y := if stop.minimumY.Some? && camera.y >= stop.minimumY.value then Max(y, stop.minimumY.value) else y;
    var x := if stop.maximumX.Some? && camera.x <= stop.maximumX.value then Min(x, stop.maximumX.value) else x;
    var y := if stop.maximumY.Some? && camera.y <= stop.maximumY.value then Min(y, stop.maximumY.value) else y;
    Vec(x, y)
  }

  /** Where the camera wants to look: ahead of the player along its normal and its speed. */
  function CameraTarget(p: PlayerData): Vec {
    Add(Add(p.position, ScaleInt(Normal(p), 32)), ScaleInt(p.speed, 64))
  }

  const CAMERA_SIZE: Vec := Vec(64 * ONE, 32 * ONE)

  /** The camera chases the target only when it leaves the 64x32 box around the camera. */
  function Chase(ops: Numerics, camera: Vec, target: Vec): (r: Vec)
    ensures ops.rectContains(Sub(camera, DivInt(CAMERA_SIZE, 2)), CAMERA_SIZE, target) ==> r == camera
    ensures !ops.rectContains(Sub(camera, DivInt(CAMERA_SIZE, 2)), CAMERA_SIZE, target) ==>
      r == Add(camera, Scale(ops.fastNormalise(Sub(target, camera)), CAMERA_CHASE_SPEED))
  {
    if !ops.rectContains(Sub(camera, DivInt(CAMERA_SIZE, 2)), CAMERA_SIZE, target) then
      Add(camera, Scale(ops.fastNormalise(Sub(target, camera)), CAMERA_CHASE_SPEED))
    else camera
  }

  /** `update_camera`: chase, then clamp by the scroll stop of the camera's own cell. */
  function CameraDestination(env: Env, camera: Vec, p: PlayerData): (r: Vec)
    ensures var destination := Chase(env.ops, camera, CameraTarget(p));
      match MapLib.GetScrollStop(env.tables, Floor(camera.x), Floor(camera.y))
      case None => r == destination
      case Some(stop) => r == ClampToScrollStop(camera, destination, stop)
  {
    var destination := Chase(env.ops, camera, CameraTarget(p));
    match MapLib.GetScrollStop(env.tables, Floor(camera.x), Floor(camera.y))
    case None => destination
    case Some(stop) => ClampToScrollStop(camera, destination, stop)
  }

  /** A camera inside its cell's scroll-stop bounds stays inside them for the next frame. */
  lemma CameraStaysInBounds(env: Env, camera: Vec, p: PlayerData, stop: ScrollStop)
    requires MapLib.GetScrollStop(env.tables, Floor(camera.x), Floor(camera.y)) == Some(stop)
    requires stop.minimumX.Some? && stop.maximumX.Some?
    requires stop.minimumX.value <= camera.x <= stop.maximumX.value
    ensures stop.minimumX.value <= CameraDestination(env, camera, p).x <= stop.maximumX.value
  {
  }

  /** Raw value of the interpolation parameter at recovery time t (16 <= t < 64): (t - 16) / 48. */
  function RecoveryParameter(t: int): (r: Number)
    requires 16 <= t < 64
    ensures 0 <= r < ONE && (t == 16 <==> r == 0)
  {
    TruncDiv(FromInt(t - 16), 64 - 16)
  }

  /** The bubble's position at parameter `time`: a blend of two lines offset along the local gravity. */
  function RecoveryPosition(rs: RecoveringState, time: Number): Vec {
    var startPositionLine := Add(rs.startingFrom, ScaleInt(Scale(rs.startingReverseLocalGravity, time), 30));
    var endingPositionLine := Add(rs.recoverTo, ScaleInt(Scale(rs.destinationReverseLocalGravity, -time + ONE), 30));
    Add(Scale(startPositionLine, -time + ONE), Scale(endingPositionLine, time))
  }

  /**
   * One frame of the `Recovering` arm of `update`, time counted first:
   * frames 1 to 15 hold the player still, 16 to 63 move it from where it died
   * towards the recovery point, 64 to 79 wait, and from 80 play resumes with
   * the pop animation at the player's position.
   */
  function RecoveryStep(rs: RecoveringState, p: PlayerData, bubblePopFrames: nat): (r: (PlayerState, PlayerData))
    ensures var t := rs.time + 1;
      && (t < 16 ==> r == (Recovering(rs.(time := t)), p.(speed := Zero)))
      && (16 <= t < 64 ==> r.0 == Recovering(rs.(time := t)) && r.1 == p.(position := r.1.position))
      && (64 <= t < 80 ==> r == (Recovering(rs.(time := t)), p))
      && (t >= 80 ==> r == (Playing(2 * bubblePopFrames, p.position), p))
  {
    var t := rs.time + 1;
    var recovering := Recovering(rs.(time := t));
    if t < 16 then (recovering, p.(speed := Zero))
    else if t < 64 then (recovering, p.(position := RecoveryPosition(rs, RecoveryParameter(t))))
    else if t < 80 then (recovering, p)
    else (Playing(2 * bubblePopFrames, p.position), p)
  }

  /** The interpolation starts exactly where the player died. */
  lemma RecoveryStartsWhereDied(rs: RecoveringState, p: PlayerData, bubblePopFrames: nat)
    requires rs.time == 15
    ensures RecoveryStep(rs, p, bubblePopFrames).1.position == rs.startingFrom
  {
    var srg := rs.startingReverseLocalGravity;
    MulUnit(srg.x);
    MulUnit(srg.y);
    assert Scale(srg, 0) == Zero;
    var start := Add(rs.startingFrom, ScaleInt(Scale(srg, 0), 30));
    assert start == rs.startingFrom;
    var ending := Add(rs.recoverTo, ScaleInt(Scale(rs.destinationReverseLocalGravity, ONE), 30));
    MulUnit(start.x);
    MulUnit(start.y);
    MulUnit(ending.x);
    MulUnit(ending.y);
    assert RecoveryPosition(rs, 0) == Add(Scale(start, ONE), Scale(ending, 0));
  }

  /** A recovery that starts at time 0 returns to play after exactly 80 frames. */
  lemma {:induction false} RecoveryTakesEightyFrames(rs: RecoveringState, p: PlayerData, bubblePopFrames: nat, n: nat)
    requires rs.time == 0 && n <= 80
    ensures RecoverySteps(rs, p, bubblePopFrames, n).0 ==
      (if n < 80 then Recovering(rs.(time := n)) else Playing(2 * bubblePopFrames, RecoverySteps(rs, p, bubblePopFrames, n).1.position))
  {
    if n > 0 {
      RecoveryTakesEightyFrames(rs, p, bubblePopFrames, n - 1);
    }
  }

  /** n frames of recovery, stopping once play resumes. */
  function RecoverySteps(rs: RecoveringState, p: PlayerData, bubblePopFrames: nat, n: nat): (PlayerState, PlayerData) {
    if n == 0 then (Recovering(rs), p)
    else
      var prev := RecoverySteps(rs, p, bubblePopFrames, n - 1);
      match prev.0
      case Playing(_, _) => prev
      case Recovering(r) => RecoveryStep(r, prev.1, bubblePopFrames)
  }

  /** The power-ups left after `retain_mut`: those the player is not close enough to collect, in order. */
  function Uncollected(powerups: seq<PowerUps.PowerUpObject>, location: Vec): (r: seq<PowerUps.PowerUpObject>)
    ensures |r| <= |powerups|
    ensures forall o :: o in r <==> o in powerups && o.Update(location).None?
    decreases |powerups|
  {
    if powerups == [] then []
    else
      var init := powerups[..|powerups| - 1];
      var last := powerups[|powerups| - 1];
      assert powerups == init + [last];
      Uncollected(init, location) + (if last.Update(location).None? then [last] else [])
  }

  /** The player after `apply_powerup` for each collected power-up, in order. */
  function Collect(p: PlayerData, powerups: seq<PowerUps.PowerUpObject>, location: Vec): (r: PlayerData)
    ensures ValidPlayer(p) ==> ValidPlayer(r)
    ensures r == p.(jumpSpeed := r.jumpSpeed, canDash := r.canDash)
    ensures (exists o :: o in powerups && o.Update(location).Some?) ==> r.jumpSpeed == BOOSTED_JUMP_SPEED
    ensures (forall o :: o in powerups ==> o.Update(location).None?) ==> r == p
    decreases |powerups|
  {
    if powerups == [] then p
    else
      var init := powerups[..|powerups| - 1];
      var last := powerups[|powerups| - 1];
      assert powerups == init + [last];
      var q := Collect(p, init, location);
      match last.Update(location)
      case None => q
      case Some(kind) => ApplyPowerUp(q, KindOf(kind))
  }

  class Player {
    var angle: AffineMatrix
    var surfaceNormal: Vec
    var speed: Vec
    var position: Vec
    var facing: PlayerFacing
    var groundState: GroundState
    var groundSpeed: Number
    var airSpeed: Number
    var canDash: bool
    var dashState: DashState
    var maxJumps: nat
    var jumpsRemaining: nat
    var jumpState: JumpState
    var jumpSpeed: Number
    var frame: nat

    function Data(): PlayerData
      reads this
    {
      PlayerData(angle, surfaceNormal, speed, position, facing, groundState, groundSpeed, airSpeed,
                 canDash, dashState, maxJumps, jumpsRemaining, jumpState, jumpSpeed, frame)
    }

    predicate Valid()
      reads this
    {
      ValidPlayer(Data())
    }

    /** The contact classification of `physics_frame`: friction, ground state and the jump and dash refresh. */
    method ApplyContact(contact: Option<Number>)
      requires Valid()
      modifies this
      ensures Valid()
      ensures Data() == GroundContact(old(Data()), contact)
    {
      var js, ds, jr, sp, gs := jumpState, dashState, jumpsRemaining, speed, groundState;
      if contact.Some? && contact.value > CONTACT_GROUND {
        js, ds, jr := HasJump, Available, maxJumps;
        sp := Scale(sp, FRICTION_GROUND);
        gs := OnGround;
      } else if contact.Some? && contact.value > CONTACT_STEEP {
        js, ds, jr := HasJump, Available, maxJumps;
        sp := Scale(sp, FRICTION_STEEP);
        gs := OnGround;
      } else {
        sp := Scale(sp, FRICTION_AIR);
        gs := InAir;
      }
      if MagnitudeSquared(sp) < SETTLE_SPEED {
        sp := Zero;
      }
      jumpState, dashState, jumpsRemaining, speed, groundState := js, ds, jr, sp, gs;
    }

    /** The ground-contact part of `physics_frame`, which writes the player's fields. */
    method Land(contact: Option<Number>, gravityDirection: Vec)
      requires Valid()
      modifies this
      ensures Valid()
      ensures Data() == Landing(old(Data()), contact, gravityDirection)
    {
      ApplyContact(contact);
      UpdateFacing(Neg(gravityDirection));
      position := Add(position, speed);
    }

    /** The pull of gravity in `physics_frame`: a tenth of the direction, or 1/128 while a held jump rises. */
    method Fall(gravityDirection: Vec, jumpPressed: bool)
      requires Valid()
      modifies this
      ensures Valid()
      ensures Data() == old(Data()).(speed := Add(old(speed), Gravity(old(Data()), gravityDirection, jumpPressed)))
    {
      var gravity := if jumpState == Jumping && jumpPressed then DivInt(gravityDirection, 128)
                     else DivInt(gravityDirection, 10);
      speed := Add(speed, gravity);
    }

    constructor (start: Vec)
      ensures Data() == InitialPlayer(start) && Valid()
    {
      angle := IDENTITY;
      speed := Zero;
      position := start;
      jumpState := Falling;
      facing := Right;
      groundState := InAir;
      surfaceNormal := Zero;
      jumpSpeed := 563;
      groundSpeed := 64;
      airSpeed := 16;
      canDash := false;
      dashState := Available;
      jumpsRemaining := 1;
      maxJumps := 1;
      frame := 0;
    }

    /** `update_facing`: turns the sprite so that its up is `direction`. */
    method UpdateFacing(direction: Vec)
      modifies this
      ensures Data() == FaceTowards(old(Data()), direction)
    {
      angle := AffineMatrix(-direction.y, direction.x, -direction.x, -direction.y);
    }

    method HandleDirectionInput(x: int, isDashing: bool)
      modifies this
      ensures Data() == DirectionInput(old(Data()), x, isDashing)
    {
      if x != 0 {
        var dash := 0;
        if canDash && isDashing && dashState == Available && x != 0 {
          dashState := Used;
          dash := DASH_SPEED;
        }
        var normal := Vec(angle.b, -angle.a);
        var scalar := airSpeed + dash;
        if groundState == OnGround {
          scalar := groundSpeed + dash;
          if Dot(surfaceNormal, normal) > CONTACT_STEEP {
            normal := surfaceNormal;
          }
        }
        speed := Add(speed, SideAcceleration(normal, x, scalar));
        if x < 0 {
          facing := Left;
        } else {
          facing := Right;
        }
      }
    }

    method HandleJumpInput()
      requires Valid()
      modifies this
      ensures Valid()
      ensures Data() == JumpInput(old(Data()))
    {
      if jumpState == HasJump {
        var normal := Vec(angle.b, -angle.a);
        var dot := Dot(speed, normal);
        var s := speed;
        if dot < 0 {
          s := Sub(s, Scale(normal, dot));
        }
        s := Add(s, Scale(normal, jumpSpeed));
        speed, position, jumpState, jumpsRemaining, frame := s, Add(position, s), Jumping, jumpsRemaining - 1, 0;
      }
    }

    method Frame()
      requires Valid()
      modifies this
      ensures Valid()
      ensures Data() == FrameTick(old(Data()))
    {
      frame := (frame + 1) % USIZE_LIMIT;
      if jumpState == Jumping && frame > JUMP_FRAMES {
        if jumpsRemaining > 0 {
          jumpState := HasJump;
        } else {
          jumpState := Falling;
        }
      }
    }

    method ApplyPowerup(kind: MapLib.PowerUpKind)
      modifies this
      ensures Data() == ApplyPowerUp(old(Data()), kind)
    {
      match kind {
        case JumpBoost => jumpSpeed := BOOSTED_JUMP_SPEED;
        case SpeedBoost => canDash := true;
      }
    }
  }

  /** Buttons of one frame. */
  datatype Input = Input(buttonX: int, dashPressed: bool, jumpPressed: bool, jumpJustPressed: bool)

  class Game {
    var cameraPosition: Vec
    const player: Player
    var lastGravitySource: Option<Collider>
    var playerState: PlayerState
    var powerups: seq<PowerUps.PowerUpObject>
    const env: Env

    predicate Valid()
      reads this, player
    {
      env.Valid() && player.Valid() && (lastGravitySource.Some? ==> lastGravitySource.value.Valid())
    }

    /** `Game::new`; the power-up objects are given (their construction from the map's table is not part of this model). */
    constructor (env: Env, powerups: seq<PowerUps.PowerUpObject>)
      requires env.Valid()
      ensures Valid() && fresh(player)
      ensures this.env == env && cameraPosition == env.cameraStart && player.Data() == InitialPlayer(env.startPoint)
      ensures lastGravitySource == None && playerState == Playing(0, Zero) && this.powerups == powerups
    {
      this.env := env;
      cameraPosition := env.cameraStart;
      player := new Player(env.startPoint);
      lastGravitySource := None;
      playerState := Playing(0, Zero);
      this.powerups := powerups;
    }

    method HandlePlayerDeath() returns (ok: bool)
      requires Valid()
      modifies this
      ensures Valid()
      ensures ok == Death(env, lastGravitySource, player.position).Some?
      ensures ok ==> playerState == Recovering(Death(env, lastGravitySource, player.position).value)
      ensures !ok ==> playerState == old(playerState)
      ensures cameraPosition == old(cameraPosition) && lastGravitySource == old(lastGravitySource)
      ensures powerups == old(powerups)
    {
      var death := Death(env, lastGravitySource, player.position);
      ok := death.Some?;
      if ok {
        playerState := Recovering(death.value);
      }
    }

    /** One iteration of the collision loop. */
    method CollideWith(c: Collider, maxAngle: Option<Number>) returns (ok: bool, angle: Option<Number>)
      requires Valid() && c.Valid()
      modifies this, player
      ensures Valid()
      ensures var r := CollideOne(env, old(lastGravitySource), Contact(old(player.Data()), old(playerState), maxAngle), c);
        ok == r.Some? && (ok ==> r.value == Contact(player.Data(), playerState, angle))
      ensures cameraPosition == old(cameraPosition) && lastGravitySource == old(lastGravitySource)
      ensures powerups == old(powerups)
    {
      var circle := PlayerCircle(player.position);
      ok, angle := true, maxAngle;
      if c.CollidesCircle(env.ops, circle) {
        if c.tag.IsKillsPlayer() {
          ok := HandlePlayerDeath();
        } else if c.tag.IsCollision() {
          var normal := c.NormalCircle(env.ops, circle);
          player.surfaceNormal := normal;
          var dot := Dot(normal, player.speed);
          if dot < 0 {
            player.speed := Sub(player.speed, Scale(normal, dot));
          }
          var cosine := Dot(Vec(player.angle.b, -player.angle.a), normal);
          angle := Some(Max(maxAngle.GetOr(NO_CONTACT), cosine));
          var overshoot := c.Overshoot(env.ops, circle);
          player.position := Add(player.position, overshoot);
        } else {
          TagPartition(c.tag);
        }
      }
    }

    /** `handle_collider_collisions`; ok is false where a death panics. */
    method HandleColliderCollisions(colliders: seq<Collider>) returns (ok: bool, maxAngle: Option<Number>)
      requires Valid() && AllValid(colliders)
      modifies this, player
      ensures Valid()
      ensures var r := CollideAll(env, old(lastGravitySource), Contact(old(player.Data()), old(playerState), None), colliders);
        ok == r.Some? && (ok ==> r.value == Contact(player.Data(), playerState, maxAngle))
      ensures ok ==> playerState == old(playerState) || playerState.Recovering?
      ensures cameraPosition == old(cameraPosition) && lastGravitySource == old(lastGravitySource)
      ensures powerups == old(powerups)
    {
      ghost var start := Contact(player.Data(), playerState, None);
      maxAngle := None;
      var i := 0;
      while i < |colliders|
        invariant 0 <= i <= |colliders|
        invariant Valid()
        invariant CollideAll(env, lastGravitySource, start, colliders[..i]) == Some(Contact(player.Data(), playerState, maxAngle))
        invariant cameraPosition == old(cameraPosition) && lastGravitySource == old(lastGravitySource)
        invariant powerups == old(powerups)
      {
        assert colliders[..i + 1][..i] == colliders[..i];
        var stepOk;
        stepOk, maxAngle := CollideWith(colliders[i], maxAngle);
        if !stepOk {
          ok := false;
          assert colliders[..i + 1] + colliders[i + 1..] == colliders;
          CollideAllStops(env, lastGravitySource, start, colliders[..i + 1], colliders[i + 1..]);
          return;
        }
        i := i + 1;
      }
      assert colliders[..i] == colliders;
      ok := true;
    }

    /** `Game::get_gravity_source`; None where the source panics. */
    method GetGravitySource(colliders: seq<Collider>) returns (source: Option<Vec>)
      requires Valid() && AllValid(colliders)
      modifies this
      ensures Valid()
      ensures colliders == [] ==>
        && lastGravitySource == old(lastGravitySource)
        && source == (if lastGravitySource.None? then None
                      else Some(lastGravitySource.value.ClosestPoint(env.ops, player.position)))
      ensures colliders != [] ==>
        var g := GravitySource(env.ops, colliders, player.position);
        && (g.None? ==> source.None? && lastGravitySource == old(lastGravitySource))
        && (g.Some? ==> source == Some(g.value.1) && lastGravitySource == Some(g.value.0))
      ensures cameraPosition == old(cameraPosition) && playerState == old(playerState)
      ensures powerups == old(powerups)
    {
      if colliders == [] {
        if lastGravitySource.None? {
          return None;
        }
        source := Some(lastGravitySource.value.ClosestPoint(env.ops, player.position));
      } else {
        var g := GravitySource(env.ops, colliders, player.position);
        if g.None? {
          return None;
        }
        lastGravitySource := Some(g.value.0);
        source := Some(g.value.1);
      }
    }

    /** `physics_frame`; ok is false where the source panics. */
    method PhysicsFrame(jumpPressed: bool) returns (ok: bool, contact: Option<Number>)
      requires Valid()
      modifies this, player
      ensures ok ==> Valid()
      ensures ok ==> (player.groundState == OnGround <==> contact.Some? && contact.value > CONTACT_STEEP)
      ensures ok && player.groundState == OnGround ==>
        player.jumpState == HasJump && player.dashState == Available && player.jumpsRemaining == player.maxJumps
      ensures ok ==> player.speed == Zero || MagnitudeSquared(player.speed) >= SETTLE_SPEED
      ensures ok && contact.None? ==> player.jumpState == old(player.jumpState) && player.jumpsRemaining == old(player.jumpsRemaining)
      ensures ok ==> playerState == old(playerState) || playerState.Recovering?
      ensures cameraPosition == old(cameraPosition) && powerups == old(powerups)
    {
      var colliders := Nearby(env, player.position);
      var gravitySource := GetGravitySource(colliders);
      if gravitySource.None? {
        return false, None;
      }
      var gravityDirection := env.ops.fastNormalise(Sub(gravitySource.value, player.position));
      player.Fall(gravityDirection, jumpPressed);
      ghost var beforeContact := player.Data();
      ok, contact := HandleColliderCollisions(colliders);
      if !ok {
        return;
      }
      if contact.None? {
        NoContactIff(env, lastGravitySource, Contact(beforeContact, old(playerState), None), colliders);
      }
      ghost var afterContact := player.Data();
      player.Land(contact, gravityDirection);
      LandingClassifies(afterContact, contact, gravityDirection);
    }

    /** `update_camera`. */
    method UpdateCamera()
      modifies this
      ensures cameraPosition == CameraDestination(env, old(cameraPosition), player.Data())
      ensures lastGravitySource == old(lastGravitySource) && playerState == old(playerState)
      ensures powerups == old(powerups)
    {
      var target := Add(Add(player.position, ScaleInt(Vec(player.angle.b, -player.angle.a), 32)), ScaleInt(player.speed, 64));
      var destination := Chase(env.ops, cameraPosition, target);
      var stop := MapLib.GetScrollStop(env.tables, Floor(cameraPosition.x), Floor(cameraPosition.y));
      if stop.Some? {
        destination := ClampToScrollStop(cameraPosition, destination, stop.value);
      }
      cameraPosition := destination;
    }

    /** The `retain_mut` pass: collect every power-up in reach, in order, and keep the rest. */
    method CollectPowerUps()
      requires Valid()
      modifies this, player
      ensures Valid()
      ensures powerups == Uncollected(old(powerups), player.position)
      ensures player.Data() == Collect(old(player.Data()), old(powerups), player.position)
      ensures cameraPosition == old(cameraPosition) && playerState == old(playerState)
      ensures lastGravitySource == old(lastGravitySource)
    {
      ghost var p0 := player.Data();
      var kept: seq<PowerUps.PowerUpObject> := [];
      var i := 0;
      while i < |powerups|
        invariant 0 <= i <= |powerups|
        invariant powerups == old(powerups) && player.position == old(player.position)
        invariant kept == Uncollected(powerups[..i], player.position)
        invariant player.Data() == Collect(p0, powerups[..i], player.position)
        invariant Valid()
        invariant cameraPosition == old(cameraPosition) && playerState == old(playerState)
        invariant lastGravitySource == old(lastGravitySource)
      {
        assert powerups[..i + 1][..i] == powerups[..i];
        var collected := powerups[i].Update(player.position);
        if collected.Some? {
          player.ApplyPowerup(KindOf(collected.value));
        } else {
          kept := kept + [powerups[i]];
        }
        i := i + 1;
      }
      assert powerups[..i] == powerups;
      powerups := kept;
    }

    /** `update`: one frame of the scene; ok is false where the source panics. */
    method Update(input: Input) returns (ok: bool)
      requires Valid()
      modifies this, player
      ensures ok ==> Valid()
      ensures ok ==> powerups == Uncollected(old(powerups), player.position)
      ensures ok && old(playerState).Recovering? ==>
        playerState == RecoveryStep(old(playerState).recover, old(player.Data()), env.bubblePopFrames).0
      ensures ok && old(playerState).Recovering? ==>
        player.position == RecoveryStep(old(playerState).recover, old(player.Data()), env.bubblePopFrames).1.position
      ensures ok && old(playerState).Recovering? ==>
        player.speed == RecoveryStep(old(playerState).recover, old(player.Data()), env.bubblePopFrames).1.speed
      ensures ok ==> cameraPosition == CameraDestination(env, old(cameraPosition), player.Data())
      ensures old(playerState).Recovering? ==> ok
      ensures ok && old(playerState).Playing? && playerState.Playing? ==>
        var t := old(playerState).remainingPopTime;
        playerState == Playing(if t > 0 then t - 1 else 0, old(playerState).popLocation)
    {
      match playerState {
        case Playing(remainingPopTime, popLocation) =>
          playerState := Playing(if remainingPopTime > 0 then remainingPopTime - 1 else 0, popLocation);
          player.HandleDirectionInput(input.buttonX, input.dashPressed);
          var contact;
          ok, contact := PhysicsFrame(input.jumpPressed);
          if !ok {
            return;
          }
          if input.jumpJustPressed {
            player.HandleJumpInput();
          }
          player.Frame();
        case Recovering(recover) =>
          var next := RecoveryStep(recover, player.Data(), env.bubblePopFrames);
          player.speed, player.position := next.1.speed, next.1.position;
          playerState := next.0;
          ok := true;
      }
      FinishFrame();
    }

    /** The end of `update` in both states: the camera follows the player, then power-ups in reach are collected. */
    method FinishFrame()
      requires Valid()
      modifies this, player
      ensures Valid()
      ensures powerups == Uncollected(old(powerups), player.position)
      ensures player.Data() == Collect(old(player.Data()), old(powerups), player.position)
      ensures player.position == old(player.position) && player.speed == old(player.speed)
      ensures cameraPosition == CameraDestination(env, old(cameraPosition), player.Data())
      ensures playerState == old(playerState) && lastGravitySource == old(lastGravitySource)
    {
      UpdateCamera();
      ghost var beforeCollect := player.Data();
      CollectPowerUps();
      assert CameraTarget(player.Data()) == CameraTarget(beforeCollect);
    }
  }

  /** After a panic, the rest of the loop does not run. */
  lemma {:induction false} CollideAllStops(env: Env, last: Option<Collider>, s: Contact, cs: seq<Collider>, more: seq<Collider>)
    requires env.Valid() && AllValid(cs) && AllValid(more) && (last.Some? ==> last.value.Valid())
    requires CollideAll(env, last, s, cs).None?
    ensures AllValid(cs + more)
    ensures CollideAll(env, last, s, cs + more).None?
    decreases |more|
  {
    if more != [] {
      var init := more[..|more| - 1];
      assert (cs + more)[..|cs + more| - 1] == cs + init;
      CollideAllStops(env, last, s, cs, init);
    } else {
      assert cs + more == cs;
    }
  }
}
