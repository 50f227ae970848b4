/**
 * The decisions PlayerMove takes before it touches any state: what an item
 * is worth, whether an enemy contact is an attack, which way the knockback
 * pushes, how much horizontal speed a key release leaves, which audio clip
 * an action selects, and the jump/landing latch.
 * Physics readings (velocity, positions, the ground ray) are plain inputs.
 */
module PlayerRules {
  import opened Wrappers
  import opened Text

  // ---------------------------------------------------------------- items

  datatype Metal = Bronze | Silver | Gold

  /** The substring of an item's name that marks its metal. */
  function Tag(m: Metal): string {
    match m
    case Bronze => "Bronze"
    case Silver => "Silver"
    case Gold => "Gold"
  }

  /** Stage points a pickup of that metal is worth. */
  function Value(m: Metal): int {
    match m
    case Bronze => 50
    case Silver => 100
    case Gold => 200
  }

  predicate Marked(name: string, m: Metal) {
    Contains(name, Tag(m))
  }

  /**
   * Stage points for picking up the item called `name`: the first of
   * Bronze, Silver, Gold that the name contains decides, none gives 0.
   * Since the checks run from the cheapest metal up, the reward is the
   * smallest value among the metals the name mentions.
   */
  function Reward(name: string): (r: int)
    ensures r == 0 <==> forall m :: !Marked(name, m)
    ensures r != 0 ==> exists m :: Marked(name, m) && Value(m) == r
    ensures forall m :: Marked(name, m) ==> r <= Value(m)
  {
    if Marked(name, Bronze) then 50
    else if Marked(name, Silver) then 100
    else if Marked(name, Gold) then 200
    else 0
  }

  /** Bronze wins over Silver, Silver over Gold; an unmarked name is worth nothing. */
  lemma RewardPriority(name: string)
    ensures Marked(name, Bronze) ==> Reward(name) == 50
    ensures !Marked(name, Bronze) && Marked(name, Silver) ==> Reward(name) == 100
    ensures !Marked(name, Bronze) && !Marked(name, Silver) && Marked(name, Gold) ==> Reward(name) == 200
    ensures !Marked(name, Bronze) && !Marked(name, Silver) && !Marked(name, Gold) ==> Reward(name) == 0
  {
  }

  // ---------------------------------------------------------------- contact

  /** An "Enemy" contact is an attack iff the player is falling and above the enemy's origin. */
  predicate Stomps(playerVy: real, playerY: real, enemyY: real) {
    playerVy < 0.0 && playerY > enemyY
  }

  /**
   * Horizontal sign of the knockback impulse: away from the thing that hit
   * the player, and to the left when the two share an x position.
   */
  function KnockbackSign(playerX: real, targetX: real): (d: int)
    ensures d == 1 || d == -1
    ensures (d as real) * (playerX - targetX) >= 0.0
    ensures playerX == targetX ==> d == -1
  {
    if playerX - targetX > 0.0 then 1 else -1
  }

  // ---------------------------------------------------------------- braking

  /**
   * The horizontal speed left when a horizontal key is released: half the x
   * component of the unit velocity. `speed` is the velocity's magnitude, the
   * square root the engine computes.
   */
  function StopSpeed(vx: real, vy: real, speed: real): (r: real)
    requires speed >= 0.0 && speed * speed == vx * vx + vy * vy
    ensures -0.5 <= r <= 0.5
    ensures r > 0.0 <==> vx > 0.0
    ensures r < 0.0 <==> vx < 0.0
  {
    assert vx * vx <= speed * speed by { assert vy * vy >= 0.0; }
    SquareBound(vx, speed);
    if speed == 0.0 then 0.0
    else
      UnitQuotient(vx, speed);
      vx / speed * 0.5
  }

  lemma SquareBound(a: real, s: real)
    requires s >= 0.0
    ensures a * a <= s * s ==> -s <= a <= s
  {
    if a > s {
      assert a * (a - s) > 0.0 && s * (a - s) >= 0.0;
      assert a * a == a * (a - s) + s * (a - s) + s * s;
    } else if a < -s {
      assert -a * (-a - s) > 0.0 && s * (-a - s) >= 0.0;
      assert a * a == -a * (-a - s) + s * (-a - s) + s * s;
    }
  }

  lemma UnitQuotient(a: real, s: real)
    requires s > 0.0 && -s <= a <= s
    ensures -1.0 <= a / s <= 1.0
    ensures a / s > 0.0 <==> a > 0.0
    ensures a / s < 0.0 <==> a < 0.0
  {
    var q := a / s;
    assert q * s == a;
    assert (1.0 - q) * s >= 0.0;
    assert (1.0 + q) * s >= 0.0;
  }

  // ---------------------------------------------------------------- audio

  datatype Clip = JumpClip | AttackClip | DamagedClip | ItemClip | DieClip | FinishClip

  /** The action name that selects each clip. */
  function ActionName(c: Clip): string {
    match c
    case JumpClip => "JUMP"
    case AttackClip => "ATTACK"
    case DamagedClip => "DAMAGED"
    case ItemClip => "ITEM"
    case DieClip => "DIE"
    case FinishClip => "FINISH"
  }

  /** The clip `PlaySound(action)` assigns, or None when the action is not one of the six. */
  function ClipFor(action: string): (r: Option<Clip>)
    ensures r.Some? ==> ActionName(r.value) == action
    ensures (exists c :: ActionName(c) == action) ==> r.Some?
  {
    match action
    case "JUMP" => Some(JumpClip)
    case "ATTACK" => Some(AttackClip)
    case "DAMAGED" => Some(DamagedClip)
    case "ITEM" => Some(ItemClip)
    case "DIE" => Some(DieClip)
    case "FINISH" => Some(FinishClip)
    case _ => None
  }

  /** Every clip is reached by its own action name, so no two actions share a clip. */
  lemma ClipRoundTrip(c: Clip)
    ensures ClipFor(ActionName(c)) == Some(c)
  {
  }

  // ---------------------------------------------------------------- jump latch

  /** One engine callback as the latch sees it: a frame's jump button edge, or a physics tick's readings. */
  datatype Frame =
    | UpdateFrame(jumpDown: bool)
    | FixedFrame(vy: real, rayHit: bool, rayDistance: real)

  /** A jump fires on a jump-button edge while the latch is clear. */
  predicate JumpFires(isJumping: bool, f: Frame) {
    f.UpdateFrame? && f.jumpDown && !isJumping
  }

  /** A physics tick lands the player: falling, and the ground ray hits closer than 0.5. */
  predicate Lands(f: Frame) {
    f.FixedFrame? && f.vy < 0.0 && f.rayHit && f.rayDistance < 0.5
  }

  /** The `isJumping` flag after one frame: set only by a jump, cleared only by a landing. */
  function Latch(isJumping: bool, f: Frame): (j: bool)
    ensures JumpFires(isJumping, f) ==> j
    ensures Lands(f) ==> !j
    ensures j && !isJumping ==> JumpFires(isJumping, f)
    ensures !j && isJumping ==> Lands(f)
  {
    if JumpFires(isJumping, f) then true
    else if Lands(f) then false
    else isJumping
  }

  function LatchAfter(isJumping: bool, fs: seq<Frame>): bool
    decreases |fs|
  {
    if fs == [] then isJumping else LatchAfter(Latch(isJumping, fs[0]), fs[1..])
  }

  /** Number of jumps fired along `fs`. */
  function JumpCount(isJumping: bool, fs: seq<Frame>): nat
    decreases |fs|
  {
    if fs == [] then 0
    else (if JumpFires(isJumping, fs[0]) then 1 else 0) + JumpCount(Latch(isJumping, fs[0]), fs[1..])
  }

  /** Number of landings along `fs` that clear a set latch. */
  function LandingCount(isJumping: bool, fs: seq<Frame>): nat
    decreases |fs|
  {
    if fs == [] then 0
    else (if isJumping && Lands(fs[0]) then 1 else 0) + LandingCount(Latch(isJumping, fs[0]), fs[1..])
  }

  function Bit(b: bool): int {
    if b then 1 else 0
  }

  /**
   * Jumps and landings alternate: along any run of frames the jumps exceed
   * the landings by exactly the change of the latch, so a second jump
   * always needs a landing in between.
   */
  lemma {:induction false} JumpsAlternateWithLandings(isJumping: bool, fs: seq<Frame>)
    ensures JumpCount(isJumping, fs) - LandingCount(isJumping, fs)
         == Bit(LatchAfter(isJumping, fs)) - Bit(isJumping)
    ensures JumpCount(isJumping, fs) <= LandingCount(isJumping, fs) + (if isJumping then 0 else 1)
    decreases |fs|
  {
    if fs != [] {
      JumpsAlternateWithLandings(Latch(isJumping, fs[0]), fs[1..]);
    }
  }
}
