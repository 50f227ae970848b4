/**
 * The two behaviours that hold references to each other: GameManager
 * (score, health, stages, pause and the restart button) and PlayerMove
 * (the player's handlers). The scene wires `GameManager.player` and
 * `PlayerMove.gameManager` to each other; the handlers require that wiring.
 */
module Game {
  import opened Wrappers
  import opened Timers
  import opened PlayerRules
  import opened Progress
  import opened Enemy

  /**
   * Another object a trigger or collision reports: its tag, its name, its
   * transform's position (owned by the physics engine) and whether it is active.
   */
  class SceneObject {
    const tag: string
    const name: string
    var x: real
    var y: real
    var active: bool

    constructor (tag: string, name: string, x: real, y: real)
      ensures this.tag == tag && this.name == name && this.x == x && this.y == y && active
    {
      this.tag, this.name, this.x, this.y := tag, name, x, y;
      active := true;
    }
  }

  class GameManager {
    var totalPoint: int
    var stagePoint: int
    var stageIndex: int
    var health: int
    var player: PlayerMove?
    /** Whether each stage's region is active. */
    const Stages: array<bool>
    const UIHealth: array<Tint>
    /** What the point and stage labels show. */
    var shownPoint: int
    var shownStage: int
    var restartShown: bool
    var restartLabel: string
    /** The global time scale: 1 running, 0 paused. */
    var timeScale: int

    function Model(): ManagerState
      reads this, Stages, UIHealth
    {
      ManagerState(totalPoint, stagePoint, stageIndex, health, Stages[..], UIHealth[..],
                   restartShown, restartLabel, timeScale)
    }

    /** The scene as it loads: first of `stageCount` stages active, `lives` lives, running. */
    constructor (stageCount: nat, lives: nat, buttonLabel: string)
      requires stageCount >= 1
      ensures OnlyActive(Stages[..], stageIndex) && stageIndex == 0 && Stages.Length == stageCount
      ensures health == lives && UIHealth.Length == lives && forall j :: 0 <= j < lives ==> UIHealth[j] == Normal
      ensures totalPoint == 0 && stagePoint == 0 && timeScale == 1
      ensures !restartShown && restartLabel == buttonLabel && player == null
      ensures fresh(Stages) && fresh(UIHealth)
    {
      totalPoint, stagePoint, stageIndex, health := 0, 0, 0, lives;
      player := null;
      Stages := new bool[stageCount](j => j == 0);
      UIHealth := new Tint[lives](_ => Normal);
      shownPoint, shownStage := 0, 1;
      restartShown, restartLabel, timeScale := false, buttonLabel, 1;
    }

    /** Per frame: the point label shows the banked and the current stage's points together. */
    method Update()
      modifies this`shownPoint
      ensures shownPoint == Displayed(Model())
    {
      shownPoint := totalPoint + stagePoint;
    }

    method NextStage()
      requires player != null
      requires stageIndex < Stages.Length - 1 ==> 0 <= stageIndex
      modifies this`stageIndex, this`totalPoint, this`stagePoint, this`timeScale,
               this`restartShown, this`restartLabel, this`shownStage, Stages,
               player`x, player`y, player`z, player`vx, player`vy
      ensures Model() == NextStageOf(old(Model()))
      ensures old(CanAdvance(Model())) ==> player.AtSpawn() && shownStage == stageIndex + 1
      ensures !old(CanAdvance(Model())) ==>
        player.Motion() == old(player.Motion()) && shownStage == old(shownStage)
    {
      if stageIndex < Stages.Length - 1 {
        Stages[stageIndex] := false;
        stageIndex := stageIndex + 1;
        Stages[stageIndex] := true;
        PlayerReposition();
        shownStage := stageIndex + 1;
      } else {
        timeScale := 0;
        restartLabel := ClearLabel;
        restartShown := true;
      }
      totalPoint := totalPoint + stagePoint;
      stagePoint := 0;
    }

    method HealthDown()
      requires player != null
      requires health > 1 ==> health <= UIHealth.Length
      modifies this`health, this`restartShown, UIHealth,
               player`translucent, player`flipY, player`colliderEnabled, player`clip
      ensures Model() == HealthDownOf(old(Model()))
      ensures old(health) > 1 ==> player.Looks() == old(player.Looks())
      ensures old(health) <= 1 ==> player.Dead()
    {
      if health > 1 {
        health := health - 1;
        UIHealth[health] := Lost;
      } else {
        player.OnDie();
        restartShown := true;
      }
    }

    /** A hazard zone: a player falling into it respawns if it survives the hit, then loses a life. */
    method OnTriggerEnter2D(other: SceneObject)
      requires player != null
      requires health > 1 ==> health <= UIHealth.Length
      modifies this`health, this`restartShown, UIHealth,
               player`x, player`y, player`z, player`vx, player`vy,
               player`translucent, player`flipY, player`colliderEnabled, player`clip
      ensures other.tag != "Player" ==>
        Model() == old(Model()) && player.Motion() == old(player.Motion()) && player.Looks() == old(player.Looks())
      ensures other.tag == "Player" ==> Model() == HealthDownOf(old(Model()))
      ensures other.tag == "Player" && old(health) > 1 ==> player.AtSpawn() && player.Looks() == old(player.Looks())
      ensures other.tag == "Player" && old(health) <= 1 ==> player.Motion() == old(player.Motion()) && player.Dead()
    {
      if other.tag == "Player" {
        if health > 1 {
          PlayerReposition();
        }
        HealthDown();
      }
    }

    method PlayerReposition()
      requires player != null
      modifies player`x, player`y, player`z, player`vx, player`vy
      ensures player.AtSpawn()
    {
      player.x, player.y, player.z := 0.0, 0.0, -1.0;
      player.VelocityZero();
    }

    /** Resume time; the scene reload that follows resets everything else. */
    method Restart()
      modifies this`timeScale
      ensures timeScale == 1
      ensures Model() == RestartOf(old(Model()))
    {
      timeScale := 1;
    }
  }

  class PlayerMove {
    var gameManager: GameManager?
    /** Position and velocity, owned by the physics engine. */
    var x: real
    var y: real
    var z: real
    var vx: real
    var vy: real
    /** The animator's jump flag: set by a jump, cleared by a landing. */
    var isJumping: bool
    var isWalking: bool
    var flipX: bool
    var flipY: bool
    /** The sprite drawn at alpha 0.4. */
    var translucent: bool
    var colliderEnabled: bool
    /** 10: the player's layer; 11: the layer enemies pass through after a hit. */
    var layer: int
    /** The audio source's selected clip. */
    var clip: Option<Clip>
    var pending: seq<Invocation>
    /** Horizontal direction of the last knockback impulse handed to the engine; 0 before the first hit. */
    var knockback: int

    /** Position and velocity together. */
    function Motion(): (real, real, real, real, real)
      reads this
    {
      (x, y, z, vx, vy)
    }

    /** Respawned: at (0, 0, -1) and at rest. */
    predicate AtSpawn()
      reads this
    {
      Motion() == (0.0, 0.0, -1.0, 0.0, 0.0)
    }

    function Looks(): (bool, bool, bool, Option<Clip>)
      reads this
    {
      (translucent, flipY, colliderEnabled, clip)
    }

    /** The death pose OnDie leaves. */
    predicate Dead()
      reads this
    {
      translucent && flipY && !colliderEnabled && clip == Some(DieClip)
    }

    /** The player as placed in the scene: solid, opaque, on layer 10, not yet wired to a manager. */
    constructor ()
      ensures gameManager == null && colliderEnabled && !translucent && !flipY && layer == 10
      ensures !isJumping && clip == None && pending == [] && knockback == 0
    {
      gameManager := null;
      knockback := 0;
      colliderEnabled, layer := true, 10;
      translucent, flipY, flipX := false, false, false;
      isJumping, isWalking := false, false;
      clip := None;
      pending := [];
    }

    method PlaySound(action: string)
      modifies this`clip
      ensures ClipFor(action).Some? ==> clip == ClipFor(action)
      ensures ClipFor(action).None? ==> clip == old(clip)
    {
      match action {
        case "JUMP" => clip := Some(JumpClip);
        case "ATTACK" => clip := Some(AttackClip);
        case "DAMAGED" => clip := Some(DamagedClip);
        case "ITEM" => clip := Some(ItemClip);
        case "DIE" => clip := Some(DieClip);
        case "FINISH" => clip := Some(FinishClip);
        case _ =>
      }
    }

    /**
     * Per frame, with the input read as plain values: the jump button's
     * press edge, a horizontal key's release edge, whether a horizontal key
     * is held and the raw axis. `speed` is the magnitude of the velocity, as
     * the engine computes it.
     */
    method Update(jumpDown: bool, horizontalUp: bool, horizontalHeld: bool, horizontalAxis: real, speed: real)
      requires speed >= 0.0 && speed * speed == vx * vx + vy * vy
      modifies this`isJumping, this`clip, this`vx, this`flipX, this`isWalking
      ensures isJumping == Latch(old(isJumping), UpdateFrame(jumpDown))
      ensures JumpFires(old(isJumping), UpdateFrame(jumpDown)) ==> clip == Some(JumpClip)
      ensures !JumpFires(old(isJumping), UpdateFrame(jumpDown)) ==> clip == old(clip)
      ensures vx == if horizontalUp then StopSpeed(old(vx), vy, speed) else old(vx)
      ensures horizontalUp ==> -0.5 <= vx <= 0.5
      ensures flipX == if horizontalHeld then horizontalAxis == -1.0 else old(flipX)
      ensures isWalking <==> !(-0.3 < vx < 0.3)
    {
      if jumpDown && !isJumping {
        isJumping := true;
        PlaySound("JUMP");
      }
      if horizontalUp {
        vx := StopSpeed(vx, vy, speed);
      }
      if horizontalHeld {
        flipX := horizontalAxis == -1.0;
      }
      if -0.3 < vx < 0.3 {
        isWalking := false;
      } else {
        isWalking := true;
      }
    }

    /** Per physics tick, with the ground ray's result as plain values. */
    method FixedUpdate(rayHit: bool, rayDistance: real)
      modifies this`isJumping
      ensures isJumping == Latch(old(isJumping), FixedFrame(vy, rayHit, rayDistance))
      ensures !isJumping && old(isJumping) ==> vy < 0.0 && rayHit && rayDistance < 0.5
    {
      if vy < 0.0 {
        if rayHit {
          if rayDistance < 0.5 {
            isJumping := false;
          }
        }
      }
    }

    /**
     * Touching another body; `enemy` is its EnemyMove component, or null when
     * it has none. Only a stomp looks the component up, so only a stomp needs it.
     */
    method OnCollisionEnter2D(other: SceneObject, enemy: EnemyMove?)
      requires gameManager != null && gameManager.player == this
      requires other.tag == "Enemy" && Stomps(vy, y, other.y) ==> enemy != null
      requires gameManager.health > 1 ==> gameManager.health <= gameManager.UIHealth.Length
      modifies this`translucent, this`flipY, this`colliderEnabled, this`clip, this`layer, this`pending,
               this`knockback,
               gameManager`stagePoint, gameManager`health, gameManager`restartShown, gameManager.UIHealth,
               {enemy}`translucent, {enemy}`flipY, {enemy}`colliderEnabled, {enemy}`pending
      ensures other.tag != "Enemy" ==>
        && gameManager.Model() == old(gameManager.Model()) && Looks() == old(Looks())
        && layer == old(layer) && pending == old(pending) && knockback == old(knockback)
      ensures enemy != null && !(other.tag == "Enemy" && old(Stomps(vy, y, other.y))) ==>
        enemy.Model() == old(enemy.Model())
      ensures other.tag == "Enemy" && old(Stomps(vy, y, other.y)) ==>
        && gameManager.Model() == StompOf(old(gameManager.Model()))
        && enemy.Model() == StompedOf(old(enemy.Model()))
        && clip == Some(AttackClip) && layer == old(layer) && pending == old(pending)
        && translucent == old(translucent) && flipY == old(flipY) && colliderEnabled == old(colliderEnabled)
        && knockback == old(knockback)
      ensures other.tag == "Enemy" && !old(Stomps(vy, y, other.y)) ==>
        && gameManager.Model() == HealthDownOf(old(gameManager.Model()))
        && layer == 11 && translucent && clip == Some(DamagedClip)
        && pending == old(pending) + [Invocation(Callback.OffDamaged, 3.0)]
        && knockback == KnockbackSign(x, other.x)
        && (old(Fatal(gameManager.Model())) ==> flipY && !colliderEnabled)
        && (!old(Fatal(gameManager.Model())) ==> flipY == old(flipY) && colliderEnabled == old(colliderEnabled))
    {
      if other.tag == "Enemy" {
        if vy < 0.0 && y > other.y {
          OnAttack(enemy);
          PlaySound("ATTACK");
        } else {
          OnDamaged(other.x);
          PlaySound("DAMAGED");
        }
      }
    }

    /** Entering a trigger: an item is collected, the finish flag ends the stage. */
    method OnTriggerEnter2D(other: SceneObject)
      requires gameManager != null && gameManager.player == this
      requires gameManager.stageIndex < gameManager.Stages.Length - 1 ==> 0 <= gameManager.stageIndex
      modifies other`active, this`clip, this`x, this`y, this`z, this`vx, this`vy,
               gameManager`stagePoint, gameManager`totalPoint, gameManager`stageIndex,
               gameManager`timeScale, gameManager`restartShown, gameManager`restartLabel,
               gameManager`shownStage, gameManager.Stages
      ensures other.tag == "Item" ==>
        && gameManager.Model() == CollectOf(old(gameManager.Model()), other.name)
        && !other.active && clip == Some(ItemClip)
        && Motion() == old(Motion()) && gameManager.shownStage == old(gameManager.shownStage)
      ensures other.tag == "Finish" ==>
        && gameManager.Model() == NextStageOf(old(gameManager.Model()))
        && other.active == old(other.active) && clip == Some(FinishClip)
      ensures other.tag == "Finish" && old(CanAdvance(gameManager.Model())) ==>
        AtSpawn() && gameManager.shownStage == gameManager.stageIndex + 1
      ensures other.tag == "Finish" && !old(CanAdvance(gameManager.Model())) ==>
        Motion() == old(Motion()) && gameManager.shownStage == old(gameManager.shownStage)
      ensures other.tag != "Item" && other.tag != "Finish" ==>
        && gameManager.Model() == old(gameManager.Model())
        && other.active == old(other.active) && clip == old(clip)
        && Motion() == old(Motion()) && gameManager.shownStage == old(gameManager.shownStage)
    {
      if other.tag == "Item" {
        gameManager.stagePoint := gameManager.stagePoint + Reward(other.name);
        other.active := false;
        PlaySound("ITEM");
      }
      if other.tag == "Finish" {
        gameManager.NextStage();
        PlaySound("FINISH");
      }
    }

    method OnAttack(enemy: EnemyMove)
      requires gameManager != null
      modifies gameManager`stagePoint, enemy`translucent, enemy`flipY, enemy`colliderEnabled, enemy`pending
      ensures gameManager.Model() == StompOf(old(gameManager.Model()))
      ensures enemy.Model() == StompedOf(old(enemy.Model()))
    {
      gameManager.stagePoint := gameManager.stagePoint + StompPoints;
      enemy.OnDamaged();
    }

    /** Hurt by something at horizontal position `targetX`. */
    method OnDamaged(targetX: real)
      requires gameManager != null && gameManager.player == this
      requires gameManager.health > 1 ==> gameManager.health <= gameManager.UIHealth.Length
      modifies this`translucent, this`flipY, this`colliderEnabled, this`clip, this`layer, this`pending,
               this`knockback, gameManager`health, gameManager`restartShown, gameManager.UIHealth
      ensures gameManager.Model() == HealthDownOf(old(gameManager.Model()))
      ensures layer == 11 && translucent
      ensures knockback == KnockbackSign(x, targetX)
      ensures pending == old(pending) + [Invocation(Callback.OffDamaged, 3.0)]
      ensures old(Fatal(gameManager.Model())) ==> Dead()
      ensures !old(Fatal(gameManager.Model())) ==>
        clip == old(clip) && flipY == old(flipY) && colliderEnabled == old(colliderEnabled)
    {
      gameManager.HealthDown();
      layer := 11;
      translucent := true;
      knockback := KnockbackSign(x, targetX);
      pending := pending + [Invocation(Callback.OffDamaged, 3.0)];
    }

    /** The delayed recovery after a hit. */
    method OffDamaged()
      modifies this`layer, this`translucent
      ensures layer == 10 && !translucent
    {
      layer := 10;
      translucent := false;
    }

    method OnDie()
      modifies this`translucent, this`flipY, this`colliderEnabled, this`clip
      ensures Dead()
    {
      translucent := true;
      flipY := true;
      colliderEnabled := false;
      PlaySound("DIE");
    }

    method VelocityZero()
      modifies this`vx, this`vy
      ensures vx == 0.0 && vy == 0.0
    {
      vx, vy := 0.0, 0.0;
    }
  }
}
